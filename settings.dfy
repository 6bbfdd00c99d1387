/** The settings screen (src/pages/Configuracoes/index.js): the profile it
    loads and shows, the state lookup by postal code, the profile image and
    its upload, and the error banner. Every network, storage and picker
    result is an input of the transition that consumes it. The pure
    functions below state each transition on a snapshot of the screen's
    fields; the class SettingsScreen performs them field by field. */
module Settings {
  import opened Values
  import opened Storage
  import opened Formatters
  import opened Text
  import Banner

  const FetchServerErrorMessage := "Erro ao buscar os dados do usuário!"
  const FetchErrorMessage := "Erro ao buscar os dados do usuário."
  const UploadErrorMessage := "Erro ao fazer upload da imagem."
  /** Initial value of the house-number field. */
  const HouseNumberUnknown := "Não informado"

  /** What the image component shows: nothing set yet (`null`), the bundled
      placeholder, or a remote URL. */
  datatype ImageRef = Unset | Placeholder | Remote(uri: string)

  /** The body of `GET /client`. */
  datatype Profile = Profile(
    nome: Field, cpf: Field, email: Field, telefone: Field, dataNascimento: Field,
    cep: Field, municipio: Field, bairro: Field, logradouro: Field, nCasa: Field)

  /** The outcome of the postal-code lookup: the request or reading its body
      failed, or a body arrived together with what `JSON.parse` makes of it. */
  datatype CepReply = CepUnreachable | CepBody(text: string, json: JsonParse)
  datatype JsonParse = NotJson | Json(uf: Field)

  /** The outcome of `POST /client/upload/image`. */
  datatype UploadReply = UploadResponse(status: int, path: string) | UploadThrown

  /** The outcome of the image library picker. */
  datatype PickResult = Cancelled | Picked(uri: string)

  /** A snapshot of the screen's state variables. `banner` stands for
      `errorTotais`, `showModal` and `modalColor`. */
  datatype SettingsView = SettingsView(
    userName: Field, userCpf: Field, userTell: Field, userEmail: Field,
    userDataNascimento: string, userCidade: Field, cep: Field, image: ImageRef,
    userEstado: Field, userBairro: Field, userLogradouro: Field, userCasa: Field,
    banner: Banner.BannerState)

  function Initial(): (v: SettingsView)
    ensures v.userCasa == Some(HouseNumberUnknown) && v.image == Unset && v.userDataNascimento == ""
    ensures !v.banner.visible && v.banner.message == "" && v.banner.color == Banner.ErrorColor
  {
    SettingsView(Some(""), Some(""), Some(""), Some(""), "", Some(""), Some(""), Unset,
                 Some(""), Some(""), Some(""), Some(HouseNumberUnknown), Banner.Hidden())
  }

  // ---------------------------------------------------------------------
  // showAndHideError and its timeout
  // ---------------------------------------------------------------------

  /** Only the banner changes: it shows `message` in red. */
  function ShowError(v: SettingsView, message: string): (r: SettingsView)
    ensures r.(banner := v.banner) == v
    ensures r.banner.visible && r.banner.message == message && r.banner.color == Banner.ErrorColor
  {
    v.(banner := Banner.Raise(v.banner, message, Banner.ErrorColor))
  }

  /** Only the banner changes: it is hidden and cleared, keeping its colour. */
  function ExpireBanner(v: SettingsView): (r: SettingsView)
    requires v.banner.pending > 0
    ensures r.(banner := v.banner) == v
    ensures !r.banner.visible && r.banner.message == "" && r.banner.color == v.banner.color
  {
    v.(banner := Banner.Expire(v.banner))
  }

  /** The banner shows the message in red, and the first timeout to fire
      afterwards, from this call or an earlier one, hides and clears it. */
  lemma ShowErrorThenExpire(v: SettingsView, message: string)
    ensures var shown := ShowError(v, message);
            shown.banner.message == message && shown.banner.visible
            && shown.banner.color == Banner.ErrorColor
            && shown.(banner := v.banner) == v
    ensures var hidden := ExpireBanner(ShowError(v, message));
            !hidden.banner.visible && hidden.banner.message == ""
            && hidden.(banner := v.banner) == v
  {
  }

  // ---------------------------------------------------------------------
  // Rendering helpers
  // ---------------------------------------------------------------------

  /** The phone field is rendered through the phone mask, which shows
      exactly the digits of the stored value. */
  function PhoneDisplay(v: SettingsView): (r: string)
    ensures Digits(r) == PhoneDigits(v.userTell)
  {
    PhoneKeepsDigits(v.userTell);
    FormatPhone(v.userTell)
  }

  /** The image component falls back to the placeholder while nothing is set. */
  function ImageDisplay(v: SettingsView): (r: ImageRef)
    ensures r != Unset
    ensures v.image != Unset ==> r == v.image
  {
    if v.image == Unset then Placeholder else v.image
  }

  // ---------------------------------------------------------------------
  // fetchUserData
  // ---------------------------------------------------------------------

  /** The message of the catch block: a 500 response gets its own text. */
  function FetchFailureMessage<T>(reply: Reply<T>): (m: string)
    ensures IsServerError(reply) <==> m == FetchServerErrorMessage
    ensures !IsServerError(reply) <==> m == FetchErrorMessage
  {
    if IsServerError(reply) then FetchServerErrorMessage else FetchErrorMessage
  }

  /** Loads the profile when a token is stored; a failed request shows the
      banner and changes nothing else. */
  function FetchUser(v: SettingsView, token: Option<string>, reply: Reply<Profile>): (r: SettingsView)
    ensures !Truthy(token) ==> r == v
    ensures Truthy(token) && !reply.Ok? ==> r == ShowError(v, FetchFailureMessage(reply))
    ensures Truthy(token) && reply.Ok? ==> r == ApplyProfile(v, reply.data)
  {
    if !Truthy(token) then v
    else match reply
      case Ok(p) => ApplyProfile(v, p)
      case _ => ShowError(v, FetchFailureMessage(reply))
  }

  /** The success path of the load: the fields are set in the order of the
      source, and formatting the birth date may throw part-way. */
  function ApplyProfile(v: SettingsView, p: Profile): (r: SettingsView)
    ensures r.image == v.image && r.userEstado == v.userEstado
    ensures r.userName == p.nome && r.userTell == p.telefone
  {
    var named := v.(userName := p.nome, userCpf := p.cpf, userEmail := p.email, userTell := p.telefone);
    match FormatBirthDate(p.dataNascimento)
    case Throw => ShowError(named, FetchErrorMessage)
    case Normal(date) =>
      named.(userDataNascimento := date, cep := p.cep, userCidade := p.municipio,
             userBairro := p.bairro, userLogradouro := p.logradouro, userCasa := p.nCasa)
  }

  /** On success every profile field is shown. A malformed birth date throws
      after name, CPF, e-mail and phone were set and before the rest; the
      catch block then shows the generic message. Image and state are kept. */
  lemma ApplyProfileFields(v: SettingsView, p: Profile)
    ensures var r := ApplyProfile(v, p);
            r.userName == p.nome && r.userCpf == p.cpf && r.userEmail == p.email && r.userTell == p.telefone
            && r.image == v.image && r.userEstado == v.userEstado
    ensures var r := ApplyProfile(v, p);
            FormatBirthDate(p.dataNascimento).Normal? ==>
              r.userDataNascimento == FormatBirthDate(p.dataNascimento).value
              && r.cep == p.cep && r.userCidade == p.municipio && r.userBairro == p.bairro
              && r.userLogradouro == p.logradouro && r.userCasa == p.nCasa
              && r.banner == v.banner
    ensures var r := ApplyProfile(v, p);
            FormatBirthDate(p.dataNascimento).Throw? ==>
              r.userDataNascimento == v.userDataNascimento
              && r.cep == v.cep && r.userCidade == v.userCidade && r.userBairro == v.userBairro
              && r.userLogradouro == v.userLogradouro && r.userCasa == v.userCasa
              && r.banner == Banner.Raise(v.banner, FetchErrorMessage, Banner.ErrorColor)
  {
  }

  /** Re-running the load on focus with the same successful reply changes
      nothing more. */
  lemma FetchUserIdempotent(v: SettingsView, token: Option<string>, p: Profile)
    requires FormatBirthDate(p.dataNascimento).Normal?
    ensures FetchUser(FetchUser(v, token, Ok(p)), token, Ok(p)) == FetchUser(v, token, Ok(p))
  {
  }

  /** An absent house number replaces the initial "Não informado" text. */
  lemma HouseNumberOverwritten(token: Option<string>, p: Profile)
    requires Truthy(token) && FormatBirthDate(p.dataNascimento).Normal? && p.nCasa.None?
    ensures FetchUser(Initial(), token, Ok(p)).userCasa == None
  {
  }

  /** The phone a successful load shows is the masked phone of the reply,
      even when the birth date later throws. */
  lemma LoadedPhoneIsMasked(v: SettingsView, token: Option<string>, p: Profile)
    requires Truthy(token)
    ensures PhoneDisplay(FetchUser(v, token, Ok(p))) == FormatPhone(p.telefone)
  {
  }

  // ---------------------------------------------------------------------
  // getAdressFromApi
  // ---------------------------------------------------------------------

  /** The address the lookup requests for a postal code. */
  function ViaCepUrl(cep: string): (url: string)
    ensures StartsWith(url, "https://viacep.com.br/ws/")
    ensures '-' !in cep ==> url == "https://viacep.com.br/ws/" + cep + "/json/"
    ensures '-' in cep ==> |url| == |cep| + 30
  {
    "https://viacep.com.br/ws/" + SanitizeCep(cep) + "/json/"
  }

  /** The lookup sets the state field from the `uf` of a parsed body; an
      absent postal code throws before any request, and a failed request,
      a markup body or a body that does not parse are logged and ignored. */
  function AfterLookup(v: SettingsView, reply: CepReply): (r: SettingsView)
    ensures r == v.(userEstado := r.userEstado)
    ensures v.cep.None? ==> r == v
    ensures reply.CepBody? && IsMarkup(reply.text) ==> r == v
    ensures v.cep.Some? && reply.CepBody? && !IsMarkup(reply.text) && reply.json.Json? ==>
              r.userEstado == reply.json.uf
    ensures r.userEstado != v.userEstado ==> reply.CepBody? && reply.json.Json?
  {
    if v.cep.None? then v
    else match reply
      case CepUnreachable => v
      case CepBody(text, json) =>
        if IsMarkup(text) then v
        else match json
          case NotJson => v
          case Json(uf) => v.(userEstado := uf)
  }

  // ---------------------------------------------------------------------
  // loadProfileImage
  // ---------------------------------------------------------------------

  /** Uses the stored image URL when there is one, the placeholder otherwise. */
  function LoadImage(v: SettingsView, stored: Option<string>): (r: SettingsView)
    ensures r == v.(image := r.image)
    ensures Truthy(stored) ==> r.image == Remote(stored.value)
    ensures !Truthy(stored) ==> r.image == Placeholder
  {
    v.(image := if Truthy(stored) then Remote(stored.value) else Placeholder)
  }

  // ---------------------------------------------------------------------
  // uploadImage and pickImage
  // ---------------------------------------------------------------------

  /** Only a 200 or 201 response counts as a successful upload. */
  predicate UploadAccepted(reply: UploadReply)
    ensures UploadAccepted(reply) ==> reply.UploadResponse? && 200 <= reply.status <= 201
  {
    reply.UploadResponse? && (reply.status == 200 || reply.status == 201)
  }

  function AfterUpload(v: SettingsView, reply: UploadReply): (r: SettingsView)
    ensures UploadAccepted(reply) ==> r.image == Remote(reply.path) && r.banner == v.banner
    ensures !UploadAccepted(reply) ==>
              r.image == v.image && r.banner.visible && r.banner.message == UploadErrorMessage
              && r.banner.color == Banner.ErrorColor
    ensures r.(image := v.image, banner := v.banner) == v
  {
    if UploadAccepted(reply) then v.(image := Remote(reply.path))
    else ShowError(v, UploadErrorMessage)
  }

  function StoreAfterUpload(entries: map<string, string>, reply: UploadReply): (e: map<string, string>)
    ensures UploadAccepted(reply) ==> ProfileImageKey in e && e[ProfileImageKey] == reply.path
    ensures !UploadAccepted(reply) ==> e == entries
    ensures forall k :: k != ProfileImageKey ==> (k in e <==> k in entries)
    ensures forall k :: k != ProfileImageKey && k in e ==> e[k] == entries[k]
  {
    if UploadAccepted(reply) then entries[ProfileImageKey := reply.path] else entries
  }

  /** After a successful upload the stored URL and the image on screen agree:
      loading the image from the store shows what the upload already shows. */
  lemma UploadThenLoadAgree(v: SettingsView, entries: map<string, string>, reply: UploadReply)
    requires UploadAccepted(reply) && reply.path != ""
    ensures var e := StoreAfterUpload(entries, reply);
            var shown := AfterUpload(v, reply);
            LoadImage(shown, Some(e[ProfileImageKey])) == shown
  {
  }

  /** With an empty path the two disagree: the upload shows an image with an
      empty URI, while loading the stored empty string falls back to the
      placeholder, since an empty string is falsy. */
  lemma EmptyPathUploadAndLoadDisagree(v: SettingsView, entries: map<string, string>, status: int)
    requires status == 200 || status == 201
    ensures var reply := UploadResponse(status, "");
            var e := StoreAfterUpload(entries, reply);
            var shown := AfterUpload(v, reply);
            shown.image == Remote("") && LoadImage(shown, Some(e[ProfileImageKey])).image == Placeholder
  {
  }

  /** A cancelled pick uploads nothing; a picked image is uploaded. */
  function AfterPick(v: SettingsView, pick: PickResult, reply: UploadReply): (r: SettingsView)
    ensures pick.Cancelled? ==> r == v
    ensures pick.Picked? ==> r == AfterUpload(v, reply)
  {
    if pick.Cancelled? then v else AfterUpload(v, reply)
  }

  function StoreAfterPick(entries: map<string, string>, pick: PickResult, reply: UploadReply): (e: map<string, string>)
    ensures pick.Cancelled? ==> e == entries
    ensures pick.Picked? ==> e == StoreAfterUpload(entries, reply)
  {
    if pick.Cancelled? then entries else StoreAfterUpload(entries, reply)
  }

  // ---------------------------------------------------------------------
  // The screen
  // ---------------------------------------------------------------------

  class SettingsScreen {
    var userName: Field
    var userCpf: Field
    var userTell: Field
    var userEmail: Field
    var userDataNascimento: string
    var userCidade: Field
    var cep: Field
    var imagemPerfil: ImageRef
    var userEstado: Field
    var userBairro: Field
    var userLogradouro: Field
    var userCasa: Field
    var modalColor: string
    var showModal: bool
    var errorTotais: string
    /** Dismissal timeouts scheduled and not yet fired. */
    var pendingDismissals: nat

    function View(): SettingsView
      reads this
    {
      SettingsView(userName, userCpf, userTell, userEmail, userDataNascimento, userCidade, cep,
                   imagemPerfil, userEstado, userBairro, userLogradouro, userCasa,
                   Banner.BannerState(errorTotais, showModal, modalColor, pendingDismissals))
    }

    constructor ()
      ensures View() == Initial()
    {
      userName, userCpf, userTell, userEmail := Some(""), Some(""), Some(""), Some("");
      userDataNascimento, userCidade, cep := "", Some(""), Some("");
      imagemPerfil := Unset;
      userEstado, userBairro, userLogradouro := Some(""), Some(""), Some("");
      userCasa := Some(HouseNumberUnknown);
      modalColor, showModal, errorTotais := Banner.ErrorColor, false, "";
      pendingDismissals := 0;
    }

    /** showAndHideError */
    method ShowAndHideError(message: string)
      modifies this
      ensures View() == ShowError(old(View()), message)
    {
      errorTotais := message;
      showModal := true;
      modalColor := Banner.ErrorColor;
      pendingDismissals := pendingDismissals + 1;
    }

    /** One scheduled timeout fires. */
    method Dismiss()
      requires pendingDismissals > 0
      modifies this
      ensures View() == ExpireBanner(old(View()))
    {
      showModal := false;
      errorTotais := "";
      pendingDismissals := pendingDismissals - 1;
    }

    /** fetchUserData; the reply is that of `GET /client` and is only
        consulted when a token is stored. */
    method FetchUserData(store: KeyValueStore, reply: Reply<Profile>)
      modifies this
      ensures View() == FetchUser(old(View()), store.GetItem(TokenKey), reply)
    {
      var token := store.GetItem(TokenKey);
      if Truthy(token) {
        match reply {
          case Ok(userData) =>
            SetProfile(userData);
          case HttpError(status) =>
            if status == 500 {
              ShowAndHideError(FetchServerErrorMessage);
            } else {
              ShowAndHideError(FetchErrorMessage);
            }
          case NoResponse =>
            ShowAndHideError(FetchErrorMessage);
        }
      }
    }

    /** The statements of fetchUserData after a successful request. */
    method SetProfile(userData: Profile)
      modifies this
      ensures View() == ApplyProfile(old(View()), userData)
    {
      userName, userCpf := userData.nome, userData.cpf;
      userEmail, userTell := userData.email, userData.telefone;
      var date := FormatBirthDate(userData.dataNascimento);
      match date {
        case Throw =>
          ShowAndHideError(FetchErrorMessage);
        case Normal(formatted) =>
          SetProfileDetails(userData, formatted);
      }
    }

    /** The birth date and address fields, set once the date is formatted. */
    method SetProfileDetails(userData: Profile, birthDate: string)
      modifies this
      ensures View() == old(View()).(userDataNascimento := birthDate, cep := userData.cep,
                                     userCidade := userData.municipio, userBairro := userData.bairro,
                                     userLogradouro := userData.logradouro, userCasa := userData.nCasa)
    {
      userDataNascimento := birthDate;
      cep := userData.cep;
      userCidade := userData.municipio;
      userBairro := userData.bairro;
      userLogradouro := userData.logradouro;
      userCasa := userData.nCasa;
    }

    /** getAdressFromApi; returns the address requested, or None when the
        postal code is absent and sanitising it throws. */
    method GetAddressFromApi(reply: CepReply) returns (requested: Option<string>)
      modifies this
      ensures requested == if old(cep).None? then None else Some(ViaCepUrl(old(cep).value))
      ensures View() == AfterLookup(old(View()), reply)
    {
      if cep.None? {
        return None;
      }
      var sanitizedCep := SanitizeCep(cep.value);
      requested := Some("https://viacep.com.br/ws/" + sanitizedCep + "/json/");
      match reply {
        case CepUnreachable =>
        case CepBody(data, json) =>
          if !IsMarkup(data) {
            match json {
              case NotJson =>
              case Json(uf) => userEstado := uf;
            }
          }
      }
    }

    /** loadProfileImage */
    method LoadProfileImage(store: KeyValueStore)
      modifies this
      ensures View() == LoadImage(old(View()), store.GetItem(ProfileImageKey))
    {
      var imageUrl := store.GetItem(ProfileImageKey);
      if Truthy(imageUrl) {
        imagemPerfil := Remote(imageUrl.value);
      } else {
        imagemPerfil := Placeholder;
      }
    }

    /** uploadImage; the reply is that of the multipart upload. */
    method UploadImage(store: KeyValueStore, reply: UploadReply)
      modifies this, store
      ensures View() == AfterUpload(old(View()), reply)
      ensures store.entries == StoreAfterUpload(old(store.entries), reply)
    {
      match reply {
        case UploadResponse(status, path) =>
          if status == 200 || status == 201 {
            store.SetItem(ProfileImageKey, path);
            imagemPerfil := Remote(path);
          } else {
            ShowAndHideError(UploadErrorMessage);
          }
        case UploadThrown =>
          ShowAndHideError(UploadErrorMessage);
      }
    }

    /** pickImage; `reply` is consulted only when an image was picked. */
    method PickImage(store: KeyValueStore, pick: PickResult, reply: UploadReply)
      modifies this, store
      ensures View() == AfterPick(old(View()), pick, reply)
      ensures store.entries == StoreAfterPick(old(store.entries), pick, reply)
    {
      if pick.Picked? {
        UploadImage(store, reply);
      }
    }
  }
}
