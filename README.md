# UniBus client screens: formatters and screen state, in Dafny

This project models the logic of two screens of the UniBus mobile client:

- the **settings screen** (`Configuracoes`), which loads the user's profile
  with the stored bearer token, shows the phone number and birth date through
  two display formatters, looks up the user's state (`uf`) from the postal
  code, shows a profile image and uploads a new one picked from the image
  library, and reports failures through a red banner;
- the **contracts screen** (`Contratos`), which loads the profile and then the
  user's contract, shows a "no contract" text when there is none, and reports
  failures through a red banner (a green variant also exists).

Modules:

- `Values` (values.dfy): possibly absent JavaScript strings (`Field`), the
  outcome of an API request (`Reply`: body, HTTP error status, or no
  response) and the completion of an expression that may throw.
- `Storage` (storage.dfy): the durable key/value store, with the keys
  `userToken` and `profileImageUrl`.
- `Text` (text.dfy): the JavaScript string operations the screens use
  (`replace(/\D/g, '')`, `split`, `padStart`, `replace` with a string pattern,
  `startsWith`), with their partners (`Join`, `Count`) and lemmas.
- `Formatters` (formatters.dfy): `formatarTelefone`,
  `formatarDataNascimento`, the postal-code sanitising and the markup test
  of the address lookup.
- `Banner` (banner.dfy): the banner state (message, visibility, colour) and
  its dismissal. The 1500 ms `setTimeout` becomes an explicit expiry event,
  and the state counts the timeouts that are scheduled and have not fired.
  No timeout is ever cancelled, so any expiry hides the banner, including the
  expiry of a timeout scheduled for an older message.
- `Settings` (settings.dfy) and `Contracts` (contracts.dfy): each screen's
  state as a datatype snapshot, each handler as a pure transition function
  with its properties, and a class holding the screen's state variables
  whose methods assign them one after another as the handlers do. Each
  method's postcondition ties the new snapshot to the transition function.
  Network, storage and picker results are parameters of the method that
  consumes them. A reply is consulted only when the source would make that
  request.

Where the code and the system's design intent differ, the model follows the
code:

- In `pickImage`, a denied media permission only raises an alert; the picker
  is still opened and a picked image is still uploaded.
- On the contracts screen the two requests are sequential inside one `try`
  block. A failing profile request therefore skips the contract request, and
  a failure of either request is mapped to "Contrate um Serviço" (status 500)
  or "Erro .".
- The contracts screen tests `data.length > 0`. A contract delivered as a
  JSON object has no `length`, so it always leads to "Nenhum Contrato
  Encontrado..." (`Contracts.CompanyObjectReadsAsNoContract`).
- An absent `n_casa` replaces the initial "Não informado" text
  (`Settings.HouseNumberOverwritten`).
- A birth date containing `T` whose date part has fewer than two `-` makes
  `formatarDataNascimento` throw inside `fetchUserData`. By then name, CPF,
  e-mail and phone have been set; the remaining fields have not. The catch
  block then shows the generic message.
- `loadProfileImage` is defined but never called by the screen. The image
  state stays `null` until an upload, and rendering falls back to the
  placeholder (`Settings.ImageDisplay`).
- A 200 or 201 upload reply with an empty `path` is shown as an image with
  an empty URI, and the empty string is stored. Loading the image later reads
  the stored value as falsy and shows the placeholder instead
  (`Settings.EmptyPathUploadAndLoadDisagree`).

## Model

| member | source | states |
|---|---|---|
| `Values.Truthy` | src/pages/Configuracoes/index.js:80 | a truthy string is present and non-empty; null, undefined and `''` are falsy, as in the tests at :80, :94 and :138 and at src/pages/Contratos/index.js:61 |
| `Values.IsServerError` | src/pages/Configuracoes/index.js:116 | the `error.response && error.response.status === 500` test holds only for a rejection carrying a response, and for one exactly when its status is 500 |
| `Text.Digits` | src/pages/Configuracoes/index.js:70 | the result of deleting non-digits contains only digits, is no longer than the input, returns an all-digit input unchanged, and is empty for an input without digits (with `Text.DigitsConcat` this fixes the result for every input) |
| `Text.DigitsConcat` | src/pages/Configuracoes/index.js:70 | stripping works piecewise: the digits of `a + b` are the digits of `a` followed by those of `b` |
| `Text.DigitsFixpoint` | src/pages/Configuracoes/index.js:70 | a string is unchanged by stripping exactly when it holds only digits (both directions) |
| `Text.DigitsIdempotent` | src/pages/Configuracoes/index.js:70 | stripping twice equals stripping once |
| `Text.Split` | src/pages/Configuracoes/index.js:82-84 | `split` on one character yields at least one piece, and no piece contains the separator |
| `Text.JoinSplit` | src/pages/Configuracoes/index.js:82-84 | joining the pieces of a split with the separator gives back the input |
| `Text.SplitLength` | src/pages/Configuracoes/index.js:84 | a split has one more piece than the input has separators |
| `Text.SplitNoSep` | src/pages/Configuracoes/index.js:82-84 | a string without the separator splits into itself alone |
| `Text.SplitAtFirst` | src/pages/Configuracoes/index.js:82-83 | the first piece is the text before the first separator; the other pieces are those of the text after it |
| `Text.PadStart` | src/pages/Configuracoes/index.js:85 | `padStart` returns a string of length max(width, input length) that ends with the input and begins with fill characters only |
| `Text.RemoveFirst` | src/pages/Configuracoes/index.js:54 | replacing a one-character string pattern leaves a string without it unchanged; otherwise it is one shorter and holds one occurrence fewer |
| `Text.RemoveFirstAt` | src/pages/Configuracoes/index.js:54 | exactly the first occurrence is removed (`p + c + q` becomes `p + q` when `p` has no `c`) |
| `Formatters.FormatPhone` | src/pages/Configuracoes/index.js:69-77 | null or undefined gives `""`; eleven digits give `(XX) XXXXX-XXXX` with the digits in place (length 15); any other digit count gives the bare digits |
| `Formatters.PhoneDigits` | src/pages/Configuracoes/index.js:70 | the digits taken from the value contain only digits; null or undefined gives `""`; an all-digit value is kept as it is |
| `Formatters.PhoneKeepsDigits` | src/pages/Configuracoes/index.js:70-76 | stripping non-digits from the formatted phone gives the stripped input |
| `Formatters.MaskDigits` | src/pages/Configuracoes/index.js:73 | the mask `(a) b-c` adds only punctuation to its digit parts |
| `Formatters.PhoneIdempotent` | src/pages/Configuracoes/index.js:69-77 | formatting a formatted phone number changes nothing |
| `Formatters.FormatBirthDate` | src/pages/Configuracoes/index.js:79-89 | a falsy value gives `""`, and a value without `T` is returned unchanged |
| `Formatters.ReorderDate` | src/pages/Configuracoes/index.js:84-85 | reordering the date part throws exactly when it has fewer than two `-`, so that `dia` is undefined |
| `Formatters.BirthDateBeforeT` | src/pages/Configuracoes/index.js:81-83 | with a `T` present, only the text before the first `T` is used |
| `Formatters.SplitIsoDate` | src/pages/Configuracoes/index.js:84 | with hyphen-free year and month, `year-month-rest` splits into year, month and then the pieces of the rest |
| `Formatters.BirthDateIso` | src/pages/Configuracoes/index.js:81-85 | `YYYY-MM-DDT...` becomes day/month/year with day and month left-padded with `0`; when the date part has more than three pieces, the day is the third piece and the rest is dropped |
| `Formatters.BirthDateThrows` | src/pages/Configuracoes/index.js:84-85 | evaluation throws exactly when the text before the first `T` has fewer than two `-` (fewer than three parts) |
| `Formatters.SanitizeCep` | src/pages/Configuracoes/index.js:54 | a postal code without `-` is unchanged; otherwise one hyphen fewer and one character shorter |
| `Formatters.SanitizeCepFirstHyphen` | src/pages/Configuracoes/index.js:54 | only the first `-` is removed |
| `Text.StartsWith` | src/pages/Configuracoes/index.js:58 | `startsWith(prefix)` holds exactly when the string is the prefix followed by some rest |
| `Formatters.IsMarkup` | src/pages/Configuracoes/index.js:58 | a lookup body is rejected exactly when its first character is `<` |
| `Banner.Hidden` | src/pages/Configuracoes/index.js:26-28 | the initial banner is hidden, red, has no pending timer and satisfies the invariant "visible iff it carries a message and a pending timer" |
| `Banner.Raise` | src/pages/Configuracoes/index.js:43-47 | showing sets message, colour and visibility whatever was shown before and schedules one more dismissal; the result satisfies the invariant exactly when the message is non-empty |
| `Banner.Expire` | src/pages/Configuracoes/index.js:47-50 | any scheduled dismissal hides and clears the banner, keeps its colour, and restores the invariant |
| `Banner.StaleTimerClearsNewerMessage` | src/pages/Configuracoes/index.js:43-51 | after two raises, the first expiry already clears the second message while the second timer is still pending |
| `Settings.Initial` | src/pages/Configuracoes/index.js:14-28 | the house number starts as "Não informado", the image as unset, the banner hidden and red |
| `Settings.ShowError` | src/pages/Configuracoes/index.js:43-51 | only the banner changes; it is visible, red and carries the message |
| `Settings.ExpireBanner` | src/pages/Configuracoes/index.js:47-50 | only the banner changes; it is hidden and cleared and keeps its colour |
| `Settings.ShowErrorThenExpire` | src/pages/Configuracoes/index.js:43-51 | showAndHideError shows the message in red and changes nothing else; the next expiry hides and clears it |
| `Settings.PhoneDisplay` | src/pages/Configuracoes/index.js:235 | the rendered phone shows exactly the digits of the stored phone |
| `Settings.ImageDisplay` | src/pages/Configuracoes/index.js:206 | the image shown is never unset: the placeholder stands in for a missing image |
| `Settings.FetchFailureMessage` | src/pages/Configuracoes/index.js:116-122 | status 500 gives "Erro ao buscar os dados do usuário!", every other failure the same text ending in `.` (both directions) |
| `Settings.FetchUser` | src/pages/Configuracoes/index.js:91-124 | no token (absent or empty): no change and no banner; a failed request: only the banner changes, with the message for its status; success: the profile is applied |
| `Settings.ApplyProfile` | src/pages/Configuracoes/index.js:101-112 | name and phone come from the reply on every path, and image and state are kept; `Settings.ApplyProfileFields` gives every field |
| `Settings.ApplyProfileFields` | src/pages/Configuracoes/index.js:101-113 | success shows every profile field with the formatted birth date; a throwing birth date leaves the later fields unchanged and raises the generic banner; image and state are kept |
| `Settings.FetchUserIdempotent` | src/pages/Configuracoes/index.js:101-112 | repeating a successful load with the same reply changes nothing more |
| `Settings.LoadedPhoneIsMasked` | src/pages/Configuracoes/index.js:104-107 | after a load with a token, the rendered phone is the mask of the reply's phone, also when the birth date throws |
| `Settings.HouseNumberOverwritten` | src/pages/Configuracoes/index.js:112 | an absent house number replaces "Não informado" |
| `Settings.ViaCepUrl` | src/pages/Configuracoes/index.js:54-55 | the lookup requests a viaCEP URL; a postal code without `-` is used as it is, and one with `-` loses exactly one character |
| `Settings.AfterLookup` | src/pages/Configuracoes/index.js:53-67 | only the state field can change; it changes only to the `uf` of a parsed, non-markup body; an absent postal code, a failed request or a markup body changes nothing |
| `Settings.LoadImage` | src/pages/Configuracoes/index.js:135-146 | a stored non-empty URL becomes the image; otherwise the placeholder; nothing else changes |
| `Settings.UploadAccepted` | src/pages/Configuracoes/index.js:181 | only a response with status 200 or 201 is accepted; a thrown upload never is |
| `Settings.AfterUpload` | src/pages/Configuracoes/index.js:181-192 | 200 or 201 shows the returned path; any other status or a thrown error keeps the image and raises "Erro ao fazer upload da imagem." in red; nothing else changes |
| `Settings.StoreAfterUpload` | src/pages/Configuracoes/index.js:181-185 | a successful upload stores the path under `profileImageUrl`; a failed one leaves the store as it was; other keys never change |
| `Settings.UploadThenLoadAgree` | src/pages/Configuracoes/index.js:135-141 | after a successful upload with a non-empty path, loading the image from the store shows the image the upload set |
| `Settings.EmptyPathUploadAndLoadDisagree` | src/pages/Configuracoes/index.js:138-141 | after a successful upload with an empty path, the upload shows an image with an empty URI, but loading the stored empty string shows the placeholder |
| `Settings.AfterPick` | src/pages/Configuracoes/index.js:148-161 | a cancelled pick changes nothing; a picked image is uploaded |
| `Settings.StoreAfterPick` | src/pages/Configuracoes/index.js:157-160 | a cancelled pick leaves the store unchanged |
| `Settings.SettingsScreen.constructor` | src/pages/Configuracoes/index.js:14-28 | the state variables start with the initial values of the source |
| `Settings.SettingsScreen.ShowAndHideError` | src/pages/Configuracoes/index.js:43-51 | sets message, visibility and red, and schedules one dismissal |
| `Settings.SettingsScreen.Dismiss` | src/pages/Configuracoes/index.js:47-50 | a scheduled timeout fires and hides and clears the banner |
| `Settings.SettingsScreen.FetchUserData` | src/pages/Configuracoes/index.js:91-124 | the new state is `FetchUser` of the old state, the stored token and the reply |
| `Settings.SettingsScreen.SetProfile` | src/pages/Configuracoes/index.js:101-113 | the success path assigns the fields in order; a throwing date stops after the phone |
| `Settings.SettingsScreen.SetProfileDetails` | src/pages/Configuracoes/index.js:107-112 | sets the birth date and the address fields and nothing else |
| `Settings.SettingsScreen.GetAddressFromApi` | src/pages/Configuracoes/index.js:53-67 | requests the viaCEP address of the sanitised postal code (none when the postal code is absent) and updates the state as `AfterLookup` says |
| `Settings.SettingsScreen.LoadProfileImage` | src/pages/Configuracoes/index.js:135-146 | the new state is `LoadImage` of the stored `profileImageUrl` |
| `Settings.SettingsScreen.UploadImage` | src/pages/Configuracoes/index.js:163-193 | the new state and the new store are `AfterUpload` and `StoreAfterUpload` of the reply |
| `Settings.SettingsScreen.PickImage` | src/pages/Configuracoes/index.js:148-161 | uploads only a picked image; state and store follow `AfterPick` and `StoreAfterPick` |
| `Storage.KeyValueStore.constructor` | src/pages/Configuracoes/index.js:93 | the store starts with the given entries |
| `Storage.KeyValueStore.GetItem` | src/pages/Configuracoes/index.js:93 | a key that was never written reads as null, any other reads as its value |
| `Storage.KeyValueStore.SetItem` | src/pages/Configuracoes/index.js:183 | writes one key and leaves every other key unchanged |
| `Contracts.Initial` | src/pages/Contratos/index.js:24-28 | the message starts as "Usuário sem contrato ativo...", the contract list empty, the banner hidden and red (`#FF0000`) |
| `Contracts.CompanyName` | src/pages/Contratos/index.js:77 | `data.nome` is the object's name and undefined on an array |
| `Contracts.CompanyPhone` | src/pages/Contratos/index.js:78 | `data.telefone` is the object's phone and undefined on an array |
| `Contracts.CompanyEmail` | src/pages/Contratos/index.js:79 | `data.email` is the object's e-mail and undefined on an array |
| `Contracts.HasContracts` | src/pages/Contratos/index.js:80 | `data.length > 0` never holds for an object, and holds for an array exactly when it is non-empty |
| `Contracts.ShowError` | src/pages/Contratos/index.js:32-40 | only the banner changes; it is visible, `#FF0000` and carries the message |
| `Contracts.ShowSuccess` | src/pages/Contratos/index.js:42-50 | only the banner changes; it is visible, `#00A925` and carries the message |
| `Contracts.ExpireBanner` | src/pages/Contratos/index.js:36-39 | only the banner changes; it is hidden and cleared and keeps its colour |
| `Contracts.BannerVariants` | src/pages/Contratos/index.js:32-49 | the error banner is `#FF0000` and the success banner `#00A925`; both set message and visibility; an expiry clears either one and keeps its colour |
| `Contracts.FailureMessage` | src/pages/Contratos/index.js:89-99 | status 500 gives "Contrate um Serviço", every other failure "Erro ." (both directions) |
| `Contracts.FetchUser` | src/pages/Contratos/index.js:57-101 | no token: no change; a failed profile request: only the banner changes; otherwise the profile is set and then the contract reply applied |
| `Contracts.WithUser` | src/pages/Contratos/index.js:67-70 | the four profile fields come from the reply and nothing else changes |
| `Contracts.ApplyContract` | src/pages/Contratos/index.js:72-99 | the company fields come from the reply before the length test; a non-empty list is kept and clears the message; anything else empties the list and shows "Nenhum Contrato Encontrado..." without a banner; a failure raises the red banner |
| `Contracts.ContractNeedsProfile` | src/pages/Contratos/index.js:62-76 | when the profile request fails, the contract reply plays no part |
| `Contracts.ContractFailureAfterProfile` | src/pages/Contratos/index.js:62-99 | a failing contract request leaves the profile fields already set, the company fields and message unchanged, and raises the red banner with the 500-or-other message |
| `Contracts.CompanyObjectReadsAsNoContract` | src/pages/Contratos/index.js:77-87 | a contract delivered as an object shows its company fields and still sets "Nenhum Contrato Encontrado..." |
| `Contracts.FetchUserIdempotent` | src/pages/Contratos/index.js:62-87 | repeating a successful load with the same replies changes nothing more |
| `Contracts.ContractsScreen.constructor` | src/pages/Contratos/index.js:14-28 | the state variables start with the initial values of the source |
| `Contracts.ContractsScreen.ShowAndHideError` | src/pages/Contratos/index.js:32-40 | sets message, visibility and `#FF0000`, and schedules one dismissal |
| `Contracts.ContractsScreen.ShowAndHideSuccess` | src/pages/Contratos/index.js:42-50 | sets message, visibility and `#00A925`, and schedules one dismissal |
| `Contracts.ContractsScreen.Dismiss` | src/pages/Contratos/index.js:36-39 | a scheduled timeout fires and hides and clears the banner |
| `Contracts.ContractsScreen.FetchUserData` | src/pages/Contratos/index.js:57-101 | the new state is `FetchUser` of the old state, the stored token and both replies |
| `Contracts.ContractsScreen.SetUser` | src/pages/Contratos/index.js:67-70 | sets the four profile fields and nothing else |
| `Contracts.ContractsScreen.LoadContract` | src/pages/Contratos/index.js:72-87 | the new state is `ApplyContract` of the old state and the contract reply |
| `Contracts.ContractsScreen.ReportFailure` | src/pages/Contratos/index.js:89-99 | the catch block raises the red banner with the message for the failure's status |

## Left out

- HTTP requests through the API client, the viaCEP request and the bearer
  header: their outcomes are parameters (`Reply`, `CepReply`, `UploadReply`).
  `JSON.parse` of the viaCEP body is also a parameter (`JsonParse`).
- Store reads and writes never fail in the model. A rejected `getItem` or
  `setItem` is not modelled; in the source it would land in the handler's
  catch block.
- The media-library permission request and its `alert`
  (src/pages/Configuracoes/index.js:30-41), and the picker options: the
  picker's outcome is a parameter (`PickResult`). The platform check for the
  web is left out with the prompt.
- Timers and asynchronous interleaving: each handler runs as one atomic
  step, and the 1500 ms delay is the explicit `Dismiss` event. The screens'
  effects (`useEffect`, `useFocusEffect`) that decide when handlers run are
  not modelled; the caller invokes the methods.
- Formatters.FormatPhone: takes a string or null/undefined. `String(numero)`
  of a number or another non-string value is not modelled.
- Formatters.FormatBirthDate: takes a string or null/undefined. A truthy
  non-string value, on which `includes` would throw, is not modelled.
- Settings.SettingsScreen.GetAddressFromApi: when the postal code is
  undefined, `cep.replace` throws outside the promise chain. The model
  reports that no request was made and leaves the state unchanged; the
  uncaught exception itself is not represented.
- `formatarPreco` (src/pages/Contratos/index.js:107-109) relies on
  floating-point `toFixed` and is not modelled.
- The `animationPlayed` route effect and `setEmpresaEncontrada(empresa)`
  (src/pages/Contratos/index.js:51-55, 82) only affect rendering. The
  `rotaInicio`/`rotaFim` state is never assigned.
- All JSX, style sheets and animations, src/pages/Welcome/index.js,
  src/routes/index.js and src/pages/RecuperarSenha/progressBar.js are
  rendering and navigation only.
- The image URI and the multipart form data of an upload do not affect any
  state; `PickResult.Picked` carries the URI for readability only.
- Reply bodies are always JSON objects or arrays of the expected shape. A
  `null` body is not modelled: reading `data.nome` from it throws a
  TypeError without `error.response`, so the catch blocks would show "Erro ."
  (src/pages/Contratos/index.js:67, 77 and 97) or "Erro ao buscar os dados
  do usuário." (src/pages/Configuracoes/index.js:103, 121). Neither is a
  string body: a non-empty string passes `data.length > 0` and would be kept
  as the contract list (src/pages/Contratos/index.js:80-83).
- Strings are sequences of Unicode scalar values, while JavaScript's
  `length` and `padStart` count UTF-16 code units. For a day or month part
  holding a character outside the Basic Multilingual Plane (one scalar value,
  two code units), `padStart(2, '0')` returns it unchanged in JavaScript but
  `Text.PadStart` prefixes a `0` (src/pages/Configuracoes/index.js:85).
  Digit stripping and the eleven-digit test do not depend on the difference.
- A contract entry's contents are kept opaque (`ContractEntry`), since the
  screen never reads them.
