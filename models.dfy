/** The rows of the tables the handlers read and write, one datatype per
    entity class under Models/. Instants (`DateTime`) and dates
    (`DateOnly`) are integers; nullable strings are `Option<string>`. */
module Models {
  import opened Base

  /** A row of `adminler`. */
  datatype Admin = Admin(
    id: int,
    ad: string,
    soyad: string,
    email: string,
    sifre: string,
    createdAt: int)

  /** A row of `uyeler`. `status` is the member's active flag. */
  datatype Uye = Uye(
    id: int,
    ad: string,
    soyad: string,
    email: string,
    telefon: string,
    dogumTarihi: int,
    sehir: string,
    instagram: Option<string>,
    adres: string,
    aracMarka: Option<string>,
    aracModel: Option<string>,
    aracYili: Option<string>,
    plaka: Option<string>,
    deneyim: int,
    ilgiAlanlari: Option<string>,
    acilDurumKisi: Option<string>,
    acilDurumTelefon: Option<string>,
    uyelikSartlari: bool,
    kisiselVeri: bool,
    emailBildirim: bool,
    createdAt: int,
    sifre: string,
    status: bool,
    fotograf: Option<string>)

  /** A row of `uyelik_basvurusu`; `durum` is the application state. */
  datatype UyelikBasvurusu = UyelikBasvurusu(
    id: int,
    ad: string,
    soyad: string,
    email: string,
    telefon: string,
    dogumTarihi: int,
    sehir: string,
    instagram: Option<string>,
    adres: string,
    aracMarka: Option<string>,
    aracModel: Option<string>,
    aracYili: Option<string>,
    plaka: Option<string>,
    deneyim: int,
    ilgiAlanlari: Option<string>,
    neden: Option<string>,
    acilDurumKisi: Option<string>,
    acilDurumTelefon: Option<string>,
    sartlar: bool,
    kisiselVeri: bool,
    emailBildirim: bool,
    createdAt: int,
    durum: string,
    fotograf: Option<string>)

  /** A row of `etkinlikler`; `zaman` is when the event takes place. */
  datatype Etkinlik = Etkinlik(
    id: int,
    baslik: string,
    aciklama: string,
    fotograf: Option<string>,
    pdfUrl: Option<string>,
    adres: string,
    createdAt: int,
    zaman: int,
    status: bool)

  /** A row of `etkinlik_katilimcilari`: member `katilimciId` attends
      event `etkinlikId`. */
  datatype EtkinlikKatilimci = EtkinlikKatilimci(
    id: int,
    etkinlikId: int,
    katilimciId: int,
    createdAt: int)

  /** The three values `durum` takes. */
  const Bekliyor := "bekliyor"
  const Onaylandi := "onaylandı"
  const Reddedildi := "reddedildi"

  /** Lookups, each the predicate a handler hands to `FirstOrDefaultAsync`. */
  function AdminByEmail(admins: seq<Admin>, email: string): Option<nat> {
    FirstIndex(admins, (a: Admin) => a.email == email)
  }

  function UyeByEmail(members: seq<Uye>, email: string): Option<nat> {
    FirstIndex(members, (u: Uye) => u.email == email)
  }

  function UyeById(members: seq<Uye>, id: int): Option<nat> {
    FirstIndex(members, (u: Uye) => u.id == id)
  }

  function BasvuruByEmail(apps: seq<UyelikBasvurusu>, email: string): Option<nat> {
    FirstIndex(apps, (b: UyelikBasvurusu) => b.email == email)
  }

  function BasvuruById(apps: seq<UyelikBasvurusu>, id: int): Option<nat> {
    FirstIndex(apps, (b: UyelikBasvurusu) => b.id == id)
  }

  function EtkinlikById(events: seq<Etkinlik>, id: int): Option<nat> {
    FirstIndex(events, (e: Etkinlik) => e.id == id)
  }

  function KatilimFor(rows: seq<EtkinlikKatilimci>, etkinlikId: int, uyeId: int): Option<nat> {
    FirstIndex(rows, (k: EtkinlikKatilimci) => k.etkinlikId == etkinlikId && k.katilimciId == uyeId)
  }
}
