# Document-management web client: router guard, endpoint table, upload form

This project models the three pieces of pure logic in the front-end client of
a document-management application, and proves properties about them:

- **The router's authentication guard** and the route table it consults. The
  guard runs before every navigation. It sends a visitor without a token away
  from the four protected pages (`dashboard`, `documents`, `upload`,
  `folders`) to `login`. It sends a visitor with a token away from `login` and
  `register` to `dashboard`. Every other navigation proceeds. The stored token
  is an input (`Option<string>`), and so are the route records the target
  matched. Named navigations resolve against the flat route table. The guard
  tests the token for truthiness, not for presence, so an empty stored string
  counts as no token (`Router.EmptyTokenIsNoToken`).
- **The endpoint table**: the API base URL and its localhost default, the
  fixed auth, upload and collection paths, and the document and folder path
  builders that put an id into a template string. Each builder comes with its
  inverse (`Paths.Strip`). That inverse gives the round trip, and injectivity
  follows from it. For one id, the five builders GET, DOWNLOAD, REGENERATE,
  VISIBILITY and MOVE give pairwise different paths (DELETE shares GET's
  path). Across different ids those five still differ, provided the ids
  contain no `/`. `DocumentEndpoints.SlashInIdCollides` shows an id with a
  `/` where two builders collide.
- **The upload request**: the ordered multipart fields built from the file,
  the optional folder id and the optional visibility flag, plus the target
  path and the content-type header. The file is an opaque type parameter, and
  the form is a sequence of key/value fields. `Upload.ParseUploadForm` is the
  reader that inverts the form builder: reading the form back returns the
  inputs, except that an empty folder id reads back as absent.

Modules: `JsValues` (optional values, string truthiness, `||`), `Router`,
`Paths`, `ApiBase`, `AuthEndpoints`, `DocumentEndpoints`, `UploadEndpoints`,
`FolderEndpoints`, `EndpointTable`, `Upload`, `DocumentsApi`.

## Model

| member | source | states |
|---|---|---|
| `Router.RequiresAuth` | src/router/index.ts:61 | a target is protected exactly when some record it matched has `requiresAuth` set |
| `Router.BeforeEach` | src/router/index.ts:55-72 | the guard redirects to `login` iff some matched record is protected and the token is falsy; it redirects to `dashboard` iff the token is truthy and the target is named `login` or `register`; it only ever redirects to those two pages |
| `Router.Resolve` | src/router/index.ts:7-50 | a name resolves iff the route table has an entry with that name, and then to a location named after it that matches one table record with that name |
| `Router.FindRoute` | src/router/index.ts:7-50 | the record found carries the requested name and is the first table record with that name; nothing is found iff no record has that name |
| `Router.BeforeEachIsDecisionTable` | src/router/index.ts:63-71 | the guard equals the eight-row decision table over (protected, token truthy, auth page), so it yields exactly one outcome for every input |
| `Router.EmptyTokenIsNoToken` | src/router/index.ts:60-65 | an empty-string token gives the same decision as no token |
| `Router.RouteNamesUnique` | src/router/index.ts:7-50 | no two route records share a name |
| `Router.ProtectedRoutesAre` | src/router/index.ts:27-50 | a table record carries `requiresAuth` iff its name is `dashboard`, `documents`, `upload` or `folders` |
| `Router.ResolveEntry` | src/router/index.ts:7-50 | resolving the name of any table entry gives a location that matches exactly that entry |
| `Router.ProtectedWithoutTokenGoesToLogin` | src/router/index.ts:27-50 | without a truthy token, every protected page redirects to `login` |
| `Router.AuthPagesWithTokenGoToDashboard` | src/router/index.ts:66-68 | with a truthy token, `login` and `register` redirect to `dashboard` |
| `Router.ProtectedNeverRedirectedWithToken` | src/router/index.ts:27-50 | with a truthy token, no protected page is redirected |
| `Router.PublicPagesNeverRedirected` | src/router/index.ts:7-26 | `landing` and `verify-otp` proceed with any token or none |
| `Router.RedirectIsStable` | src/router/index.ts:63-71 | a redirect target resolves in the table, and the guard run again on it with the same token proceeds |
| `Router.Navigate` | src/router/index.ts:63-71 | following redirects ends, if it ends, on a location the guard lets through; a target the guard lets through is kept unchanged |
| `Router.NoRedirectLoop` | src/router/index.ts:12-71 | every navigation settles after at most one redirect, on the page the guard redirected to |
| `ApiBase.BaseUrl` | src/api/endpoints.ts:2 | the base URL is the configured value when it is non-empty, otherwise `http://localhost:4000`; it is never empty |
| `AuthEndpoints.AuthEndpointsDistinct` | src/api/endpoints.ts:5-10 | the four auth paths are pairwise different |
| `Paths.Join` | src/api/endpoints.ts:15-20 | a template path starts with its prefix, ends with its suffix, and holds the id between them |
| `Paths.StripJoin` | src/api/endpoints.ts:15-20 | removing prefix and suffix from a built path gives the id back |
| `Paths.JoinSuffixInjective` | src/api/endpoints.ts:15-20 | for one prefix and id, equal built paths have equal suffixes |
| `DocumentEndpoints.Get` | src/api/endpoints.ts:15 | the path starts with `/documents/` and the id is exactly what follows it |
| `DocumentEndpoints.Download` | src/api/endpoints.ts:16 | the path starts with `/documents/`, ends with `/download`, and the id is exactly what lies between |
| `DocumentEndpoints.Delete` | src/api/endpoints.ts:17 | the path starts with `/documents/` and the id is exactly what follows it |
| `DocumentEndpoints.Regenerate` | src/api/endpoints.ts:18 | the path starts with `/documents/`, ends with `/regenerate`, and the id is exactly what lies between |
| `DocumentEndpoints.Visibility` | src/api/endpoints.ts:19 | the path starts with `/documents/`, ends with `/visibility`, and the id is exactly what lies between |
| `DocumentEndpoints.Move` | src/api/endpoints.ts:20 | the path starts with `/documents/`, ends with `/move`, and the id is exactly what lies between |
| `DocumentEndpoints.GetIsDelete` | src/api/endpoints.ts:15-17 | fetching and deleting a document use the same path for every id |
| `DocumentEndpoints.BuildersInjective` | src/api/endpoints.ts:15-20 | each document builder gives equal paths only for equal ids |
| `DocumentEndpoints.ByIdPathsDistinct` | src/api/endpoints.ts:15-20 | for one id, GET, DOWNLOAD, REGENERATE, VISIBILITY and MOVE give five different paths |
| `DocumentEndpoints.SlashInIdCollides` | src/api/endpoints.ts:15-20 | an id containing `/` can make the GET path of one id equal the MOVE path of another |
| `DocumentEndpoints.ByIdPathsDistinctAcrossIds` | src/api/endpoints.ts:15-20 | for ids without `/`, two of the five builders GET, DOWNLOAD, REGENERATE, VISIBILITY and MOVE never give the same path, whatever the ids |
| `DocumentEndpoints.ListIsNotById` | src/api/endpoints.ts:14-20 | the list path differs from every one of the six by-id paths |
| `FolderEndpoints.Get` | src/api/endpoints.ts:31 | the path starts with `/folders/` and the id is exactly what follows it |
| `FolderEndpoints.Update` | src/api/endpoints.ts:33 | the path starts with `/folders/` and the id is exactly what follows it |
| `FolderEndpoints.Delete` | src/api/endpoints.ts:34 | the path starts with `/folders/` and the id is exactly what follows it |
| `FolderEndpoints.FolderPathsAgree` | src/api/endpoints.ts:30-34 | GET, UPDATE and DELETE give one path for every id, and LIST and CREATE are both `/folders` |
| `FolderEndpoints.BuildersInjective` | src/api/endpoints.ts:31-34 | each folder builder gives equal paths only for equal ids |
| `FolderEndpoints.ListIsNotById` | src/api/endpoints.ts:30-34 | the collection path differs from the GET, UPDATE and DELETE paths |
| `EndpointTable.EndpointPathsRooted` | src/api/endpoints.ts:5-34 | every endpoint path, fixed or built, starts with `/` |
| `EndpointTable.DocumentAndFolderPathsDisjoint` | src/api/endpoints.ts:13-34 | every document by-id path (GET, DOWNLOAD, DELETE, REGENERATE, VISIBILITY, MOVE) differs from the folder by-id path for any ids, and the two list paths differ |
| `Upload.BoolText` | src/api/upload.ts:12 | `String(isPublic)` is `"true"` exactly for true and `"false"` otherwise |
| `Upload.UploadFields` | src/api/upload.ts:7-13 | the form has 1 to 3 fields; it starts with the file; a `folderId` field is present iff the folder id is non-empty, and it carries that id; an `isPublic` field is present iff the flag is given, and it carries the flag's text; the keys come in the order file, folderId, isPublic |
| `Upload.UploadKeysDistinct` | src/api/upload.ts:7-13 | no key occurs twice in the upload form |
| `Upload.ParseUploadFields` | src/api/upload.ts:7-13 | reading the form back returns the file, the flag, and the folder id when it is non-empty |
| `Upload.UploadDocument` | src/api/upload.ts:15-19 | the request goes to `/upload`, carries exactly the header `Content-Type: multipart/form-data`, and carries a form from which a receiver reads back the file, the flag, and the folder id when it is non-empty |
| `DocumentsApi.ListParams` | src/api/documents.ts:20 | the list call sends a `folderId` query parameter exactly when the folder id is non-empty, and no parameter otherwise |
| `DocumentsApi.ListFilterMatchesUploadRule` | src/api/documents.ts:20 | the list filter uses the same truthiness rule as the upload form's `folderId` field |

## Left out

- The token read from `localStorage` is not modelled: the token is a parameter.
- The router's construction is not modelled: `createRouter`, the browser history, and the lazily imported view components.
- `to.matched` resolution in general is not modelled. A target's matched records are an input to the guard. `Router.Resolve` covers only named navigations into this flat table.
- The guard's unused `_from` argument is not modelled.
- Router.Resolve: a navigation to a name that is not in the table yields "absent" here. The router library instead raises its own error, and that error handling is not part of this model.
- Router.Navigate: redirect following takes an explicit budget. The router library has no budget of its own. `Router.NoRedirectLoop` shows that a budget of one redirect always suffices.
- The HTTP calls in `src/api/documents.ts`, `src/api/folders.ts` and `src/api/auth.ts` are not modelled. They forward to an HTTP client module, and `./client` is not part of this model. `DocumentsApi.ListParams` models their one local decision.
- Unwrapping of `response.data` versus `response.data.data` is not modelled. It depends on the unseen client and on the server's response shape.
- `uploadAPI.uploadDocument`'s network POST and response are not modelled. `Upload.UploadDocument` models the request it builds.
- The browser's `File` and `FormData` objects are not modelled. The file is an opaque type parameter, and the form is an ordered sequence of fields.
- The DTO interfaces in `src/types/index.ts` are not modelled: they carry no behaviour.
