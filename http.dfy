/** What a handler returns. Failure results carry the message text the
    handler writes; success results carry the fields of the JSON body
    that the handlers modelled here compute. */
module Http {
  import opened Base
  import Jwt

  datatype Body =
    | LoggedIn(token: Jwt.Token, userType: string, userId: int, ad: string,
               soyad: string, email: string, expiresAt: int)
    | ProfileUpdated
    | ApplicationReceived(id: int, durum: string)
    | ApplicationApproved(uyeId: int, geciciSifre: string)
    | ApplicationRejected(reddetmeNedeni: Option<string>)
    | StatusUpdated(uyeId: int, yeniStatus: bool)
    | EventCreated(id: int)
    | EventsListed
    | Joined(katilimId: int)
    | Left
    | Uploaded(url: string, fileName: string, filePath: string, fileSize: int)

  datatype Response =
    | Ok(body: Body)
    | BadRequest(message: string)   // Results.BadRequest(new { message })
    | ValidationFailed              // Results.BadRequest(new { errors }) from DataAnnotations
    | NotFound(message: string)
    | Forbidden                     // Results.Forbid()
    | Unauthorized                  // Results.Unauthorized()
    | Problem(detail: string)       // Results.Problem(..., statusCode: 500)
    | InternalError                 // an exception the handler does not catch

  /** The outcome of a handler's guard chain: either the response it
      stops with, or what it found and goes on with. */
  datatype Guard<T> = Refuse(response: Response) | Proceed(value: T)

  const InvalidCredentialsMsg := "Email veya şifre hatalı."
  const InactiveAccountMsg := "Üyeliğiniz pasif duruma getirilmiştir. Lütfen yöneticiye başvurunuz."
  const LoginProblem := "Giriş yapılırken bir hata oluştu: "

  const DuplicateApplicationMsg := "Bu email adresi ile daha önce başvuru yapılmış."
  const ApplicationSaveProblem := "Başvuru kaydedilirken bir hata oluştu. Lütfen tekrar deneyiniz."
  const BadKararMsg := "Karar 'onayla' veya 'reddet' olmalıdır."
  const ApplicationNotFoundMsg := "Başvuru bulunamadı."
  const AlreadyProcessedMsg := "Bu başvuru zaten işlenmiş."
  const DecisionProblem := "Başvuru işlenirken bir hata oluştu."

  const MemberNotFoundMsg := "Üye bulunamadı."
  const StatusProblem := "Üye durumu güncellenirken bir hata oluştu."
  const ProfileProblem := "Profil güncellenirken bir hata oluştu."

  const PastEventDateMsg := "Etkinlik tarihi bugünden sonra olmalıdır."
  const EventSaveProblem := "Etkinlik eklenirken bir hata oluştu."
  const EventNotFoundMsg := "Etkinlik bulunamadı."
  const EventInactiveMsg := "Bu etkinlik artık aktif değil."
  const JoinPastMsg := "Geçmiş etkinliklere katılım sağlanamaz."
  const AlreadyJoinedMsg := "Bu etkinliğe zaten katılım sağladınız."
  const JoinProblem := "Katılım sağlanırken bir hata oluştu."
  const LeavePastMsg := "Geçmiş etkinliklerden ayrılım sağlanamaz."
  const NotJoinedMsg := "Bu etkinliğe katılım sağlamamışsınız."
  const LeaveProblem := "Etkinlikten ayrılırken bir hata oluştu."

  const NoFileMsg := "Dosya seçilmedi."
  const NoFolderMsg := "Klasör adı gereklidir."
  const FileTooLargeMsg := "Dosya boyutu 5MB'dan büyük olamaz."
  const NotAnImageMsg := "Sadece resim dosyaları yüklenebilir (JPEG, PNG, GIF, WebP)."
  const BadFolderMsg := "Geçersiz klasör adı."
}
