/** The admin's settings page: the shop form, the customer link, the logo
    upload guard and the switches. The provider's settings and upload
    operations are not part of this model; each request is recorded. */
module Settings {
  import opened Types
  import opened Wrappers
  import opened JsText
  import AppContext
  import QrCodes

  /** The largest logo accepted: 2 MiB. */
  const MaxLogoBytes: nat := 2 * 1024 * 1024

  /** A logo is uploaded only when it is at most 2 MiB. */
  function LogoAccepted(size: nat): (ok: bool)
    ensures ok <==> size <= 2097152
  {
    !(size > MaxLogoBytes)
  }

  /** The table count typed into the form: `parseInt(...) || 1`, so an
      unreadable or zero entry becomes 1, and a negative one is kept. */
  function TablesFromInput(raw: string): (n: int)
    ensures n != 0
    ensures ParseInt(raw).Some? && ParseInt(raw).value != 0 ==> n == ParseInt(raw).value
    ensures ParseInt(raw).None? || ParseInt(raw) == Some(0) ==> n == 1
  {
    match ParseInt(raw)
    case None => 1
    case Some(v) => if v == 0 then 1 else v
  }

  /** A negative count typed into the form is kept, and the QR page then
      has no table at all. */
  lemma NegativeTablesLeaveNoCodes(k: nat)
    requires k > 0
    ensures TablesFromInput("-" + Decimal(k)) == -(k as int)
    ensures QrCodes.TableNumbers(TablesFromInput("-" + Decimal(k))) == []
  {
    ParseIntSigned(k);
  }

  /** The customer link shown on the page. */
  function ShopUrl(origin: string, slug: Option<string>): (url: string)
    ensures slug.None? ==> url == origin + "/menu"
    ensures slug.Some? ==> url == origin + "/shop/" + slug.value + "/menu"
    ensures url[..|origin|] == origin
  {
    match slug
    case None => origin + "/menu"
    case Some(s) => origin + "/shop/" + s + "/menu"
  }

  /** A settings update: only the present fields are to change. */
  datatype SettingsRequest = SettingsRequest(
    name: Option<string>,
    description: Option<string>,
    numberOfTables: Option<int>,
    isOpen: Option<bool>,
    soundAlerts: Option<bool>,
    browserNotifications: Option<bool>)

  const NoChange := SettingsRequest(None, None, None, None, None, None)

  /** The settings a request asks for: each present field replaces the old value. */
  function Requested(s: ShopSettings, r: SettingsRequest): (t: ShopSettings)
    ensures r == NoChange ==> t == s
    ensures t.logoUrl == s.logoUrl && t.shopUrl == s.shopUrl
    ensures t.shopName == r.name.GetOr(s.shopName) && t.description == r.description.GetOr(s.description)
    ensures t.numberOfTables == r.numberOfTables.GetOr(s.numberOfTables)
    ensures t.isOpen == r.isOpen.GetOr(s.isOpen) && t.soundAlerts == r.soundAlerts.GetOr(s.soundAlerts)
    ensures t.browserNotifications == r.browserNotifications.GetOr(s.browserNotifications)
  {
    s.(shopName := r.name.GetOr(s.shopName),
       description := r.description.GetOr(s.description),
       numberOfTables := r.numberOfTables.GetOr(s.numberOfTables),
       isOpen := r.isOpen.GetOr(s.isOpen),
       soundAlerts := r.soundAlerts.GetOr(s.soundAlerts),
       browserNotifications := r.browserNotifications.GetOr(s.browserNotifications))
  }

  /** A switch's request changes that switch only. */
  lemma SwitchChangesOneField(s: ShopSettings, b: bool)
    ensures Requested(s, NoChange.(isOpen := Some(b))) == s.(isOpen := b)
    ensures Requested(s, NoChange.(soundAlerts := Some(b))) == s.(soundAlerts := b)
    ensures Requested(s, NoChange.(browserNotifications := Some(b))) == s.(browserNotifications := b)
  {
  }

  datatype SettingsForm = SettingsForm(shopName: string, description: string, numberOfTables: int)

  /** The request Save sends: the form's three fields, nothing else. */
  function SaveRequest(form: SettingsForm): SettingsRequest {
    NoChange.(name := Some(form.shopName), description := Some(form.description), numberOfTables := Some(form.numberOfTables))
  }

  /** Saving asks for the form's name, description and table count and
      leaves the switches, the logo and the link as they were. */
  lemma SaveChangesFormFields(s: ShopSettings, form: SettingsForm)
    ensures Requested(s, SaveRequest(form))
         == s.(shopName := form.shopName, description := form.description, numberOfTables := form.numberOfTables)
  {
  }


  class SettingsPage {
    const app: AppContext.AppProvider
    var form: SettingsForm
    var isSaving: bool
    var isUploading: bool
    /** The settings requests sent, oldest first. */
    var requests: seq<SettingsRequest>
    /** The sizes of the logos sent for upload. */
    var uploads: seq<nat>

    constructor (app: AppContext.AppProvider)
      ensures this.app == app
      ensures form == SettingsForm(app.shopSettings.shopName, app.shopSettings.description, app.shopSettings.numberOfTables)
      ensures !isSaving && !isUploading && requests == [] && uploads == []
    {
      this.app := app;
      form := SettingsForm(app.shopSettings.shopName, app.shopSettings.description, app.shopSettings.numberOfTables);
      isSaving, isUploading, requests, uploads := false, false, [], [];
    }

    method EditTables(raw: string)
      modifies this`form
      ensures form == old(form).(numberOfTables := TablesFromInput(raw))
    {
      form := form.(numberOfTables := TablesFromInput(raw));
    }

    /** Save sends the name, description and table count, and nothing else. */
    method HandleSave()
      modifies this`requests, this`isSaving
      ensures requests == old(requests) + [SaveRequest(form)]
      ensures !isSaving
    {
      isSaving := true;
      requests := requests + [SaveRequest(form)];
      isSaving := false;
    }

    /** The logo picker. `file` is the chosen file's size, `None` when none
        was chosen; an oversized file is refused before any upload. */
    method HandleLogoUpload(file: Option<nat>)
      modifies this`uploads, this`isUploading
      ensures file.Some? && LogoAccepted(file.value) ==> uploads == old(uploads) + [file.value]
      ensures !(file.Some? && LogoAccepted(file.value)) ==> uploads == old(uploads)
      ensures file.Some? && LogoAccepted(file.value) ==> !isUploading
      ensures !(file.Some? && LogoAccepted(file.value)) ==> isUploading == old(isUploading)
    {
      if file.None? {
        return;
      }
      if file.value > 2 * 1024 * 1024 {
        return;
      }
      isUploading := true;
      uploads := uploads + [file.value];
      isUploading := false;
    }

    method ToggleOpen(checked: bool)
      modifies this`requests
      ensures requests == old(requests) + [NoChange.(isOpen := Some(checked))]
    {
      requests := requests + [NoChange.(isOpen := Some(checked))];
    }

    method ToggleSoundAlerts(checked: bool)
      modifies this`requests
      ensures requests == old(requests) + [NoChange.(soundAlerts := Some(checked))]
    {
      requests := requests + [NoChange.(soundAlerts := Some(checked))];
    }

    /** Asking for notification permission. `supported` says whether the
        browser has notifications and `granted` what the user answered; only
        a granted permission turns the setting on. */
    method RequestNotificationPermission(supported: bool, granted: bool)
      modifies this`requests
      ensures supported && granted ==> requests == old(requests) + [NoChange.(browserNotifications := Some(true))]
      ensures !(supported && granted) ==> requests == old(requests)
    {
      if !supported {
        return;
      }
      if granted {
        requests := requests + [NoChange.(browserNotifications := Some(true))];
      }
    }

    /** The notification switch: switching on asks for permission,
        switching off turns the setting off at once. */
    method NotificationSwitch(checked: bool, supported: bool, granted: bool)
      modifies this`requests
      ensures checked && supported && granted ==> requests == old(requests) + [NoChange.(browserNotifications := Some(true))]
      ensures checked && !(supported && granted) ==> requests == old(requests)
      ensures !checked ==> requests == old(requests) + [NoChange.(browserNotifications := Some(false))]
    {
      if checked {
        RequestNotificationPermission(supported, granted);
      } else {
        requests := requests + [NoChange.(browserNotifications := Some(false))];
      }
    }
  }
}
