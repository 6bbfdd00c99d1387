/** The contracts screen (src/pages/Contratos/index.js): it loads the user's
    profile and then the user's contract, shows a "no contract" text when
    there is none, and reports failures through a red or green banner. Every
    network and storage result is an input of the transition that consumes
    it. The pure functions state each transition on a snapshot of the
    screen's fields; the class ContractsScreen performs them field by field. */
module Contracts {
  import opened Values
  import opened Storage
  import Banner

  const InitialMessage := "Usuário sem contrato ativo..."
  const NoContractMessage := "Nenhum Contrato Encontrado..."
  /** Shown when a request of the load fails with status 500. */
  const HireMessage := "Contrate um Serviço"
  /** Shown for every other failure of the load. */
  const GenericErrorMessage := "Erro ."

  /** The fields of `GET /client` the screen shows. */
  datatype UserRecord = UserRecord(nome: Field, cpf: Field, email: Field, telefone: Field)

  /** One element of a contract list, kept as it arrives. */
  datatype ContractEntry = ContractEntry(fields: map<string, string>)

  /** The body of `GET /contrato`: a JSON object carrying the company's
      fields, or a JSON array of contracts. */
  datatype ContractData =
    | CompanyObject(nome: Field, email: Field, telefone: Field)
    | EntryArray(entries: seq<ContractEntry>)

  /** `data.nome`, `data.telefone`, `data.email`: undefined on an array. */
  function CompanyName(d: ContractData): (r: Field)
    ensures d.EntryArray? ==> r.None?
    ensures d.CompanyObject? ==> r == d.nome
  {
    if d.CompanyObject? then d.nome else None
  }

  function CompanyPhone(d: ContractData): (r: Field)
    ensures d.EntryArray? ==> r.None?
    ensures d.CompanyObject? ==> r == d.telefone
  {
    if d.CompanyObject? then d.telefone else None
  }

  function CompanyEmail(d: ContractData): (r: Field)
    ensures d.EntryArray? ==> r.None?
    ensures d.CompanyObject? ==> r == d.email
  {
    if d.CompanyObject? then d.email else None
  }

  /** `data.length > 0`: an object has no length, and `undefined > 0` is false. */
  predicate HasContracts(d: ContractData)
    ensures d.CompanyObject? ==> !HasContracts(d)
    ensures d.EntryArray? ==> (HasContracts(d) <==> d.entries != [])
  {
    d.EntryArray? && |d.entries| > 0
  }

  /** A snapshot of the screen's state variables. `banner` stands for
      `errorTotais`, `showModal` and `modalColor`. */
  datatype ContractsView = ContractsView(
    userName: Field, userCpf: Field, userEmail: Field, userTell: Field,
    empresaNome: Field, empresaTell: Field, empresaEmail: Field,
    empresa: ContractData, mensagem: string, banner: Banner.BannerState)

  function Initial(): (v: ContractsView)
    ensures v.mensagem == InitialMessage && v.empresa == EntryArray([])
    ensures !v.banner.visible && v.banner.message == "" && v.banner.color == Banner.ErrorColor
  {
    ContractsView(Some(""), Some(""), Some(""), Some(""), Some(""), Some(""), Some(""),
                  EntryArray([]), InitialMessage, Banner.Hidden())
  }

  // ---------------------------------------------------------------------
  // showAndHideError, showAndHideSuccess and their timeouts
  // ---------------------------------------------------------------------

  /** Only the banner changes: it shows `message` in red. */
  function ShowError(v: ContractsView, message: string): (r: ContractsView)
    ensures r.(banner := v.banner) == v
    ensures r.banner.visible && r.banner.message == message && r.banner.color == Banner.ErrorColor
  {
    v.(banner := Banner.Raise(v.banner, message, Banner.ErrorColor))
  }

  /** Only the banner changes: it shows `message` in green. */
  function ShowSuccess(v: ContractsView, message: string): (r: ContractsView)
    ensures r.(banner := v.banner) == v
    ensures r.banner.visible && r.banner.message == message && r.banner.color == Banner.SuccessColor
  {
    v.(banner := Banner.Raise(v.banner, message, Banner.SuccessColor))
  }

  /** Only the banner changes: it is hidden and cleared, keeping its colour. */
  function ExpireBanner(v: ContractsView): (r: ContractsView)
    requires v.banner.pending > 0
    ensures r.(banner := v.banner) == v
    ensures !r.banner.visible && r.banner.message == "" && r.banner.color == v.banner.color
  {
    v.(banner := Banner.Expire(v.banner))
  }

  /** The two banners differ only in colour, and an expiry hides either one
      and clears its message while keeping its colour. */
  lemma BannerVariants(v: ContractsView, message: string)
    ensures var e, s := ShowError(v, message), ShowSuccess(v, message);
            e.banner.color == Banner.ErrorColor && s.banner.color == Banner.SuccessColor
            && e.banner.message == message == s.banner.message && e.banner.visible && s.banner.visible
            && e.(banner := v.banner) == v && s.(banner := v.banner) == v
    ensures var e, s := ExpireBanner(ShowError(v, message)), ExpireBanner(ShowSuccess(v, message));
            !e.banner.visible && e.banner.message == "" && e.banner.color == Banner.ErrorColor
            && !s.banner.visible && s.banner.message == "" && s.banner.color == Banner.SuccessColor
  {
  }

  // ---------------------------------------------------------------------
  // fetchUserData
  // ---------------------------------------------------------------------

  /** The message of the catch block, shared by both requests. */
  function FailureMessage<T>(reply: Reply<T>): (m: string)
    ensures IsServerError(reply) <==> m == HireMessage
    ensures !IsServerError(reply) <==> m == GenericErrorMessage
  {
    if IsServerError(reply) then HireMessage else GenericErrorMessage
  }

  /** The profile request, then, once it succeeded, the contract request;
      both inside one try block. Without a token nothing happens. */
  function FetchUser(v: ContractsView, token: Option<string>, profile: Reply<UserRecord>,
                     contract: Reply<ContractData>): (r: ContractsView)
    ensures !Truthy(token) ==> r == v
    ensures Truthy(token) && !profile.Ok? ==> r == ShowError(v, FailureMessage(profile))
    ensures Truthy(token) && profile.Ok? ==> r == ApplyContract(WithUser(v, profile.data), contract)
  {
    if !Truthy(token) then v
    else match profile
      case Ok(u) => ApplyContract(WithUser(v, u), contract)
      case _ => ShowError(v, FailureMessage(profile))
  }

  /** The profile fields, set before the contract is requested. */
  function WithUser(v: ContractsView, u: UserRecord): (r: ContractsView)
    ensures r.userName == u.nome && r.userCpf == u.cpf && r.userEmail == u.email && r.userTell == u.telefone
    ensures r.(userName := v.userName, userCpf := v.userCpf, userEmail := v.userEmail, userTell := v.userTell) == v
  {
    v.(userName := u.nome, userCpf := u.cpf, userEmail := u.email, userTell := u.telefone)
  }

  /** The contract request's outcome: the company fields are assigned before
      the length test; a non-empty list is kept and clears the text, anything
      else empties the list and shows the "no contract" text without a banner. */
  function ApplyContract(v: ContractsView, contract: Reply<ContractData>): (r: ContractsView)
    ensures !contract.Ok? ==> r == ShowError(v, FailureMessage(contract))
    ensures contract.Ok? ==>
              r.empresaNome == CompanyName(contract.data) && r.empresaTell == CompanyPhone(contract.data)
              && r.empresaEmail == CompanyEmail(contract.data) && r.banner == v.banner
              && r.userName == v.userName && r.userCpf == v.userCpf
              && r.userEmail == v.userEmail && r.userTell == v.userTell
    ensures contract.Ok? && HasContracts(contract.data) ==> r.empresa == contract.data && r.mensagem == ""
    ensures contract.Ok? && !HasContracts(contract.data) ==>
              r.empresa == EntryArray([]) && r.mensagem == NoContractMessage
  {
    match contract
    case Ok(d) =>
      var named := v.(empresaNome := CompanyName(d), empresaTell := CompanyPhone(d), empresaEmail := CompanyEmail(d));
      if HasContracts(d) then named.(empresa := d, mensagem := "")
      else named.(empresa := EntryArray([]), mensagem := NoContractMessage)
    case _ => ShowError(v, FailureMessage(contract))
  }

  /** The contract request is made only after the profile request succeeded:
      when the profile request fails, the contract reply plays no part. */
  lemma ContractNeedsProfile(v: ContractsView, token: Option<string>, profile: Reply<UserRecord>,
                             contract1: Reply<ContractData>, contract2: Reply<ContractData>)
    requires !profile.Ok?
    ensures FetchUser(v, token, profile, contract1) == FetchUser(v, token, profile, contract2)
  {
  }

  /** A failing contract request leaves the profile fields already shown and
      the company fields as they were, and raises the red banner. */
  lemma ContractFailureAfterProfile(v: ContractsView, token: Option<string>, u: UserRecord, contract: Reply<ContractData>)
    requires Truthy(token) && !contract.Ok?
    ensures var r := FetchUser(v, token, Ok(u), contract);
            r.userName == u.nome && r.userCpf == u.cpf && r.userEmail == u.email && r.userTell == u.telefone
            && r.empresaNome == v.empresaNome && r.empresaTell == v.empresaTell && r.empresaEmail == v.empresaEmail
            && r.empresa == v.empresa && r.mensagem == v.mensagem
            && r.banner.visible && r.banner.color == Banner.ErrorColor
            && (r.banner.message == HireMessage <==> IsServerError(contract))
  {
  }

  /** A contract object, as opposed to a list, never counts as a contract:
      its company fields are shown, yet the "no contract" text is set. */
  lemma CompanyObjectReadsAsNoContract(v: ContractsView, token: Option<string>, u: UserRecord,
                                       nome: Field, email: Field, telefone: Field)
    requires Truthy(token)
    ensures var r := FetchUser(v, token, Ok(u), Ok(CompanyObject(nome, email, telefone)));
            r.empresaNome == nome && r.empresaEmail == email && r.empresaTell == telefone
            && r.mensagem == NoContractMessage && r.empresa == EntryArray([]) && r.banner == v.banner
  {
  }

  /** Reloading with the same successful replies changes nothing more. */
  lemma FetchUserIdempotent(v: ContractsView, token: Option<string>, u: UserRecord, d: ContractData)
    ensures var once := FetchUser(v, token, Ok(u), Ok(d));
            FetchUser(once, token, Ok(u), Ok(d)) == once
  {
  }

  // ---------------------------------------------------------------------
  // The screen
  // ---------------------------------------------------------------------

  class ContractsScreen {
    var userName: Field
    var userCpf: Field
    var userTell: Field
    var userEmail: Field
    var empresaNome: Field
    var empresaEmail: Field
    var empresaTell: Field
    var mensagem: string
    var modalColor: string
    var showModal: bool
    var errorTotais: string
    var empresa: ContractData
    /** Dismissal timeouts scheduled and not yet fired. */
    var pendingDismissals: nat

    function View(): ContractsView
      reads this
    {
      ContractsView(userName, userCpf, userEmail, userTell, empresaNome, empresaTell, empresaEmail,
                    empresa, mensagem, Banner.BannerState(errorTotais, showModal, modalColor, pendingDismissals))
    }

    constructor ()
      ensures View() == Initial()
    {
      userName, userCpf, userTell, userEmail := Some(""), Some(""), Some(""), Some("");
      empresaNome, empresaEmail, empresaTell := Some(""), Some(""), Some("");
      mensagem := InitialMessage;
      modalColor, showModal, errorTotais := Banner.ErrorColor, false, "";
      empresa := EntryArray([]);
      pendingDismissals := 0;
    }

    /** showAndHideError */
    method ShowAndHideError(message: string)
      modifies this
      ensures View() == ShowError(old(View()), message)
    {
      errorTotais := message;
      showModal := true;
      modalColor := Banner.ErrorColor;
      pendingDismissals := pendingDismissals + 1;
    }

    /** showAndHideSuccess */
    method ShowAndHideSuccess(message: string)
      modifies this
      ensures View() == ShowSuccess(old(View()), message)
    {
      errorTotais := message;
      showModal := true;
      modalColor := Banner.SuccessColor;
      pendingDismissals := pendingDismissals + 1;
    }

    /** One scheduled timeout fires. */
    method Dismiss()
      requires pendingDismissals > 0
      modifies this
      ensures View() == ExpireBanner(old(View()))
    {
      showModal := false;
      errorTotais := "";
      pendingDismissals := pendingDismissals - 1;
    }

    /** fetchUserData; `profile` and `contract` are the replies of the two
        requests, each consulted only when the request is made. */
    method FetchUserData(store: KeyValueStore, profile: Reply<UserRecord>, contract: Reply<ContractData>)
      modifies this
      ensures View() == FetchUser(old(View()), store.GetItem(TokenKey), profile, contract)
    {
      var token := store.GetItem(TokenKey);
      if Truthy(token) {
        match profile {
          case Ok(userData) =>
            SetUser(userData);
            LoadContract(contract);
          case _ =>
            ReportFailure(profile);
        }
      }
    }

    method SetUser(u: UserRecord)
      modifies this
      ensures View() == WithUser(old(View()), u)
    {
      userName := u.nome;
      userCpf := u.cpf;
      userEmail := u.email;
      userTell := u.telefone;
    }

    /** The statements after the contract request. */
    method LoadContract(contract: Reply<ContractData>)
      modifies this
      ensures View() == ApplyContract(old(View()), contract)
    {
      match contract {
        case Ok(data) =>
          empresaNome := CompanyName(data);
          empresaTell := CompanyPhone(data);
          empresaEmail := CompanyEmail(data);
          if HasContracts(data) {
            empresa := data;
            mensagem := "";
          } else {
            empresa := EntryArray([]);
            mensagem := NoContractMessage;
          }
        case _ =>
          ReportFailure(contract);
      }
    }

    /** The catch block. */
    method ReportFailure<T>(reply: Reply<T>)
      requires !reply.Ok?
      modifies this
      ensures View() == ShowError(old(View()), FailureMessage(reply))
    {
      if reply.HttpError? && reply.status == 500 {
        ShowAndHideError(HireMessage);
      } else {
        ShowAndHideError(GenericErrorMessage);
      }
    }
  }
}
