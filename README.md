# A verified model of the ShareFile Node client's decision logic

This project models in Dafny the logic of a thin REST client for the ShareFile
file-storage service. Every HTTP answer and every clock reading is a parameter.
It models:

- the identifier classifier `isItemID`, which decides whether `items(s)` looks an
  item up by id or by path;
- the validated value objects `DownloadSpecification` and `UploadSpecification`,
  and the transfer step `UploadSpecification.upload`;
- the item object `SharefileItem`: construction from a payload, `childBy` and its
  specialisations, the two-phase `upload`, and `update` with `renameTo` and `moveTo`.
  `update` checks the server's answer key by key, then merges it into the item in place;
- the session `SharefileAPI`: credential checks, token expiry, `authenticate`,
  `getHttpConfig` (log in only when the token is missing or expired), the base URLs,
  and the id-or-path dispatch of `items`.

Modules: `Wrappers` (Option, Result, Outcome), `Common` (errors, the bearer
configuration, truthiness of optional strings), `ItemIdClassifier`,
`DownloadSpecifications`, `UploadSpecifications`, `SharefileItems`, `SharefileNodeApi`.
`Scenarios` replays the end-to-end tests of `test/index.test.ts` with the server answers
written out. It proves them from the contracts alone.

Modelling choices:

- A constructor that throws becomes a pure function `Construct`/`FromResponse` that
  returns a `Result`, plus a static `New` method. `New` allocates the object only on
  success. The Dafny constructor itself receives already-validated data.
- JavaScript falsiness of an optional string (`!x`) is `!Present(x)`: missing or empty.
- JSON values are one level deep: a scalar (string, integer, boolean, null) or an
  object of scalars. An update request is the ordered list of its top-level keys, in
  `Object.keys` order. A response is a map.
- `authenticate` stores `now + expires_in` with no conversion from seconds to
  milliseconds, as the code does. The token-refresh test relies on this: it expects
  expiry after 30000 ms (`SharefileNodeApi.LifetimeIsNotConverted`).
- `getHttpConfig` reads the clock twice: once when it checks the token (`now`), and
  again inside `authenticate` after the login answer arrives (`loginTime`).

Two behaviours of the code that are easy to misread:

- A download specification is rejected when EITHER the token or the URL is missing,
  not only when both are.
- A failed `update` check changes nothing. No field is merged before every check has
  passed, because `Object.assign` runs only after the loop.
- The special ids that the documentation of `items` lists (`home`, `favorites`,
  `allshared`, `connectors`, `box`, `top`) are not 36 characters long. `items` therefore
  sends them to the path lookup (`<api>/Items/ByPath?path=home`), never to
  `<api>/Items(home)`. For an id-shaped string, the empty-id branch of `items` cannot be taken.

## Model

| member | source | states |
|---|---|---|
| `ItemIdClassifier.IsItemId` | src/helpers/is-item-id.ts:4-6 | true exactly when the string has length 36 and four hyphens, i.e. splits into five parts |
| `ItemIdClassifier.SplitLength` | src/helpers/is-item-id.ts:5 | `split('-')` yields one part more than there are hyphens |
| `ItemIdClassifier.JoinSplit` | src/helpers/is-item-id.ts:5 | joining the parts of a split gives back the string |
| `ItemIdClassifier.SplitPartsHaveNoSeparator` | src/helpers/is-item-id.ts:5 | no part of a split contains the separator |
| `ItemIdClassifier.HyphenPositionsDecide` | src/helpers/is-item-id.ts:5 | strings of equal length with hyphens at the same positions classify alike; no other character is inspected |
| `ItemIdClassifier.WrongLengthIsPath` | src/helpers/is-item-id.ts:5 | a string whose length is not 36 is a path |
| `ItemIdClassifier.RootIsPath` | src/helpers/is-item-id.ts:5 | "/" is a path |
| `ItemIdClassifier.UuidLayoutIsId` | src/helpers/is-item-id.ts:5 | any 8-4-4-4-12 layout of hyphen-free groups is an id, hexadecimal or not |
| `ItemIdClassifier.CanonicalUuidIsId` | src/helpers/is-item-id.ts:5 | a canonical UUID is an id |
| `DownloadSpecifications.FromResponse` | src/models/download-specification.ts:16-30 | an absent body fails first; then a missing or empty token or URL fails; on success token, URL, prep-status URL and both odata fields are copied unchanged |
| `DownloadSpecifications.SpecificationRoundTrip` | src/models/download-specification.ts:21-29 | a descriptor is rebuilt from the body it describes exactly when it has a token and a URL |
| `DownloadSpecifications.ResponseRoundTrip` | src/models/download-specification.ts:25-29 | construction is lossless: an accepted body is recovered from its descriptor |
| `DownloadSpecifications.TokenAloneIsRejected` | test/index.test.ts:47-50 | `{DownloadToken: 'x'}` is rejected as incomplete |
| `UploadSpecifications.FromResponse` | src/models/upload-specification.ts:36-47 | an absent body fails first; then a missing or empty method or chunk URL fails; otherwise any method is accepted and method and URL are copied |
| `UploadSpecifications.SpecificationRoundTrip` | src/models/upload-specification.ts:41-46 | a descriptor is rebuilt from the body it describes exactly when its method and URL are non-empty |
| `UploadSpecifications.ConstructionExamples` | test/index.test.ts:59-66 | `{ChunkUri: ''}` is rejected; `{ChunkUri: 'x', Method: 'Raw'}` is accepted |
| `UploadSpecifications.SubmitTarget` | src/models/upload-specification.ts:62 | the submit target is the chunk URL followed by exactly `&fmt=json` |
| `UploadSpecifications.SubmitTargetInjective` | src/models/upload-specification.ts:62 | distinct chunk URLs give distinct submit targets |
| `UploadSpecifications.Interpret` | src/models/upload-specification.ts:66-71 | a transport failure is passed on; a set error flag fails; otherwise the result is the first confirmation, or none when the list is empty |
| `UploadSpecifications.Upload` | src/models/upload-specification.ts:49-72 | a method other than "Standard" fails and sends nothing; otherwise the bytes (encoded when given as text) go to the submit target with their detected content type, and the answer is read by `Interpret` |
| `SharefileItems.Construct` | src/models/sharefile-item.ts:138-186 | an absent payload fails, then a falsy `url` fails; otherwise the item has exactly the declared properties present in the payload, with the payload's values |
| `SharefileItems.ConstructIdempotent` | src/models/sharefile-item.ts:149-185 | constructing an item from an item's own properties changes nothing |
| `SharefileItems.EmptyUrlIsRejected` | test/index.test.ts:35-38 | `{url: ''}` is rejected |
| `SharefileItems.ConstructAll` | src/models/sharefile-item.ts:224-235 | the children listing succeeds exactly when every child constructs; then it holds each constructed child, in server order |
| `SharefileItems.FindChild` | src/models/sharefile-item.ts:244 | the index of the first child whose property is strictly equal to the value; none means no child matches |
| `SharefileItems.ChildBy` | src/models/sharefile-item.ts:237-245 | fetch failures and invalid children are passed on; otherwise the first matching child in server order, or none when no child matches |
| `SharefileItems.ChildByName` | src/models/sharefile-item.ts:247-249 | `childBy('Name', name)`; a found child has that name |
| `SharefileItems.ChildById` | src/models/sharefile-item.ts:251-253 | `childBy('Id', id)`; a found child has that id |
| `SharefileItems.Verify` | src/models/sharefile-item.ts:290-314 | passes exactly when the response confirms every request entry; otherwise fails with the error of the first entry, in request order, that it does not confirm |
| `SharefileItems.Merge` | src/models/sharefile-item.ts:316 | every property of the response overwrites the item's; all other properties keep their values |
| `SharefileItems.VerifiedUpdateShowsRequest` | src/models/sharefile-item.ts:290-318 | after a verified update, the merged item shows every requested scalar and every requested inner property |
| `SharefileItems.UnrequestedKeysIgnored` | src/models/sharefile-item.ts:290-314 | response properties the request does not name do not affect the verdict |
| `SharefileItems.RenameVerdict` | src/models/sharefile-item.ts:276-278 | a rename is verified exactly when the response carries the new name; otherwise it fails naming `Name` |
| `SharefileItems.MoveVerdict` | src/models/sharefile-item.ts:272-274 | a move is verified exactly when the response's `Parent.Id` is the new parent; otherwise it fails naming `Parent` |
| `SharefileItems.SharefileItem.constructor` | src/models/sharefile-item.ts:147-185 | the new item holds the validated properties and the given configuration |
| `SharefileItems.SharefileItem.New` | src/models/sharefile-item.ts:138-145 | a rejected payload yields its error and no item; otherwise a fresh item with the constructed properties |
| `SharefileItems.SharefileItem.Update` | src/models/sharefile-item.ts:280-319 | a transport failure or a failed check leaves the item unchanged and reports the error; otherwise the response is merged into the item and the same item is returned |
| `SharefileItems.SharefileItem.RenameTo` | src/models/sharefile-item.ts:276-278 | a confirmed rename leaves the item with the new name; an unconfirmed one fails naming `Name` and changes nothing |
| `SharefileItems.SharefileItem.MoveTo` | src/models/sharefile-item.ts:272-274 | a confirmed move leaves the item's `Parent.Id` at the new parent; an unconfirmed one fails naming `Parent` and changes nothing |
| `SharefileItems.SharefileItem.Upload` | src/models/sharefile-item.ts:255-270 | the prepare answer is validated as an upload specification, whose errors are passed on; a non-Standard method sends nothing; otherwise the request is exactly the submit target, the given bytes (or the encoded text) and the content type detected in them, and the result is the interpreted submit answer |
| `SharefileNodeApi.CompleteMeansAllFive` | src/sharefile-node-api.ts:33 | the required properties are exactly subdomain, username, password, clientId and clientSecret |
| `SharefileNodeApi.CheckRequired` | src/sharefile-node-api.ts:33-38 | passes exactly when all five are present and non-empty; otherwise names the first missing one in checking order |
| `SharefileNodeApi.ApiPath` | src/sharefile-node-api.ts:51-53 | `https://` + subdomain + `.sf-api.com/sf/v3` |
| `SharefileNodeApi.AuthPath` | src/sharefile-node-api.ts:55-57 | `https://` + subdomain + `.sharefile.com/oauth/token` |
| `SharefileNodeApi.ApiPathInjective` | src/sharefile-node-api.ts:51-53 | distinct subdomains have distinct API base URLs |
| `SharefileNodeApi.AuthPathInjective` | src/sharefile-node-api.ts:55-57 | distinct subdomains have distinct token endpoints |
| `SharefileNodeApi.FreshSessionIsExpired` | src/sharefile-node-api.ts:43-46 | with no expiry stored, the token is expired at every instant |
| `SharefileNodeApi.StoredExpiryDecides` | src/sharefile-node-api.ts:48 | with an expiry stored, the token is expired exactly from that instant on |
| `SharefileNodeApi.ExpiryIsMonotone` | src/sharefile-node-api.ts:48 | once expired, a token stays expired |
| `SharefileNodeApi.ReuseWhileValid` | src/sharefile-node-api.ts:59-69 | while the token is present and unexpired, no login happens, the state is unchanged and the header is `Bearer ` + the stored token |
| `SharefileNodeApi.SameHeaderBeforeExpiry` | src/sharefile-node-api.ts:59-69 | two calls before expiry give the same header and the same state |
| `SharefileNodeApi.RefreshAfterExpiry` | src/sharefile-node-api.ts:60-63 | an expired token is replaced by the login's, and the header carries the new token |
| `SharefileNodeApi.LifetimeIsNotConverted` | src/sharefile-node-api.ts:91 | `expires_in` is added to the clock without unit conversion: the token is valid right after login and expired 30000 ms later for any lifetime up to 30000 |
| `SharefileNodeApi.SpecialIdsGoByPath` | src/sharefile-node-api.ts:99-116 | each of the six documented special ids (`home`, `favorites`, `allshared`, `connectors`, `box`, `top`) is looked up by path, not by id |
| `SharefileNodeApi.RootIsLookedUpByPath` | src/sharefile-node-api.ts:113-116 | `items('/')` looks up by path |
| `SharefileNodeApi.LookupForClassifies` | src/sharefile-node-api.ts:113-123 | `items(s)` looks up by id exactly when `s` has length 36 and four hyphens, and by path otherwise, always with `s` itself |
| `SharefileNodeApi.IdUrlNamesTheId` | src/sharefile-node-api.ts:118-122 | the id lookup GETs `<api>/Items(<id>)`; the empty-id branch is never taken |
| `SharefileNodeApi.ToCredentials` | src/sharefile-node-api.ts:33-40 | complete credentials give credentials whose five properties are the given, non-empty values |
| `SharefileNodeApi.SharefileApi.constructor` | src/sharefile-node-api.ts:32-41 | only credentials with all five properties non-empty are accepted; a new session stores them and has neither token nor expiry |
| `SharefileNodeApi.SharefileApi.New` | src/sharefile-node-api.ts:32-41 | absent credentials fail; otherwise the session is created exactly when all five properties are present, and else fails naming the first missing one |
| `SharefileNodeApi.SharefileApi.IsTokenExpired` | src/sharefile-node-api.ts:43-49 | the token counts as expired exactly when no expiry is stored or the clock has reached it |
| `SharefileNodeApi.SharefileApi.Authenticate` | src/sharefile-node-api.ts:75-94 | a failed login changes nothing and passes the error on; a successful one stores the token and `now + expires_in` and returns the token |
| `SharefileNodeApi.SharefileApi.GetHttpConfig` | src/sharefile-node-api.ts:59-70 | logs in exactly when the token is missing, empty or expired; returns `Bearer ` + the stored or new token |
| `SharefileNodeApi.SharefileApi.ItemsByPath` | src/sharefile-node-api.ts:133-139 | obtains a configuration, GETs `<api>/Items/ByPath?path=<path>` with it, and constructs the item bound to that configuration |
| `SharefileNodeApi.SharefileApi.Items` | src/sharefile-node-api.ts:113-124 | delegates to the path lookup unless the string is id-shaped; then GETs by id with the same configuration handling |

## Left out

- HTTP transport: every answer (login, item, children, PATCH, prepare upload, submit upload) is a parameter. A transport failure is an abstract `Transport(status)` error that is passed on unchanged.
- The clock: `now` and `loginTime` are integer millisecond parameters.
- Content-type sniffing (`detectContentType`) and string-to-buffer encoding (`Buffer.from`) are foreign libraries. They are the function parameters `detect` and `encode`, and the content is an opaque byte sequence.
- Query-string escaping (`querystring.stringify`) and the URLs that use it: the prepare-upload POST and the update PATCH. The login form body and its headers are also not modelled; `authenticate` is modelled by its state update.
- `directDownload`, `downloadSpecification`, `parent`, `listFolderTemplates` and `getFolderTemplate` only wrap a network answer. `children` is modelled by `ConstructAll` over the listing it receives.
- The resume and threading fields of the prepare-upload answer, and the login answer's `state`, `subdomain`, `apicp`, `appcp` and `h`, are never read by the code. They are not modelled.
- JSON values nested deeper than one level. `!==` on nested objects is reference identity. Dates are carried as JSON strings.
- SharefileNodeApi.SharefileApi: the constructor takes a snapshot of the credentials into an immutable field, while the code keeps a reference to the caller's object. A caller who mutates that object after construction would change `apiPath`, `authPath` and the login form; that aliasing is not modelled.
- Concurrent token refreshes, and the `console.error` logging.
- The declaration-only files `src/types.d.ts`, `src/types/types.d.ts` and `src/index.ts`. The test helpers `createFolder`/`delete` do not exist in the source.
- ItemIdClassifier.IsItemId: counts Unicode scalar values, while JavaScript's `length` counts UTF-16 code units, so a string containing characters outside the Basic Multilingual Plane can classify differently.
- SharefileItems.Verify: does not model request keys whose value is `undefined`. It does not model properties that JavaScript strings carry (`"abc"?.["0"]`): a scalar in the response has no inner properties here. The request order is taken as given, while `Object.keys` lists integer-like keys first.
- SharefileItems.Construct: JSON numbers are integers here. Fractional numbers and NaN are not modelled.
- SharefileNodeApi.SharefileLoginResponse: `expires_in` is an integer here. The `Date` constructor truncates a fractional sum; that truncation is not modelled.
