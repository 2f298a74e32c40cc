# Ibarra Móvil business directory — a Dafny model of the client core

Ibarra Móvil is an Ionic/Angular mobile client for a local business directory.
Visitors browse approved businesses and public promotions. Owners sign up,
register businesses with their documents, edit them, publish promotions and ask
for a business to be removed. Everything talks to one REST backend and keeps
the session in the browser's local storage.

This project models the client-side logic of that core as pure Dafny functions
over immutable datatypes, and proves what that logic promises:

- the owner-side business service: photo, coordinate and schedule normalisers,
  the lookup of a business by id with its fallback request, and the error mapping
  (`PrivateDetailService`);
- the public business service's schedule formatting (`PublicDetailService`);
- the owner's detail page: the carousel, the edit payload and its merge, the save
  flow, the outbound links and the edit permission (`DetailPage`);
- the deletion service and the deletion-request page (`DeletionService`, `DeletionPage`);
- the paged lists: the public list (`PublicList`), and the private list and "my
  businesses" (`Paging`);
- the upload checks shared by the forms (`Uploads`), the edit form
  (`EditBusinessPage`) and the registration form (`RegisterBusinessPage`);
- user registration: the service (`RegistrationService`) and the page (`RegisterUserPage`);
- promotions: the create and edit dialogs (`PromotionForms`), the owner's list
  (`PromotionsPage`) and the public list (`PublicPromotions`);
- the session: the authentication service, the route guard and the login page (`Session`).

JavaScript behaviour the code relies on is written out in small shared modules:

- `Js`: truthiness, `||` on optional values, the remainder operator and `splice`;
- `Text`: `trim`, `toLowerCase`, `split`, `join`, `includes` and digit filtering;
- `Wrappers`: `Option`, a three-state field (missing / `null` / present) and `Result`;
- `Http`: the failed-request record (`status`, `message`, `error` body).

The HTTP calls themselves are not modelled. Each operation takes the server's
answer as a parameter: either the data or the `HttpError`. So every branch of
the code's success and error handling is covered. `parseFloat`, number printing,
`new Date(...)` and the image-dimension check are parameters too.

Two facts about the code shape the save flow:

- No operation chooses between a multipart and a JSON update. `updateBusiness`
  takes the payload alone.
- No operation re-fetches on a timer after a save. The page merges the payload
  into the record it already holds.

The deletion page and "my businesses" import `NegocioService` from
`src/app/services/negocio.service.ts`, whose class has only `post`. The methods
they call (`getBusinessesByUser`, `getCategories`, `requestBusinessDeletion`,
`getDeletionRequests`) exist only on the class of the same name in
`src/app/services/eliminar-negocio.service.ts`. The model takes that class as
the one they use.

The public promotions page calls `getPromotionPublic(promotionType)` on
`PromocionesService`, but the class in `src/app/services/promociones.service.ts`
defines only `getHeaders`, `getPromociones` and `crearPromocion`. As written, the
page does not compile, or it throws a TypeError when it loads, and no reply ever
reaches its callbacks. The model takes the method to be a request for the public
promotions of the chosen type. `PublicPromotions.SelectType` names the type it
asks for, and `PublicPromotions.OnPublicLoad` takes the reply as a parameter.

## Model

| member | source | states |
|---|---|---|
| PrivateDetailService.PhotoUrl | src/app/services/detalle-privado.service.ts:217-223 | the URL of a photo is its `url` when truthy, else its `photoUrl` when truthy, else empty |
| PrivateDetailService.GetPhotoUrls | src/app/services/detalle-privado.service.ts:209-227 | a missing or non-array list yields no URLs; otherwise the URLs are those `UrlsOf` extracts (see UrlsOfMembership and UrlsOfAppend); no blank URL is ever returned, and never more URLs than photos |
| PrivateDetailService.UrlsOfAppend | src/app/services/detalle-privado.service.ts:217-226 | the URLs of two joined photo lists are those of the first list followed by those of the second, so the extraction keeps input order and duplicates even when photos are dropped |
| PrivateDetailService.UrlsOfMembership | src/app/services/detalle-privado.service.ts:209-227 | a URL is returned exactly when it is not blank and some photo yields it (both directions) |
| PrivateDetailService.UrlsOfKeepsAll | src/app/services/detalle-privado.service.ts:217-226 | when every photo has a URL, nothing is dropped or reordered: one URL per photo, position by position |
| PrivateDetailService.CoordinatesArray | src/app/services/detalle-privado.service.ts:229-241 | always two numbers: the parsed trimmed halves when the text has exactly one comma, the `[0, 0]` sentinel for missing text or any other comma count |
| PrivateDetailService.CoordinatesOfPair | src/app/services/detalle-privado.service.ts:229-241 | "lat,lng" parses back to its two trimmed halves (a round trip of joining with a comma) |
| PrivateDetailService.FormatSchedules | src/app/services/detalle-privado.service.ts:243-267 | one row per entry, in order; a day index 0..6 names the day from Sunday, and the unknown-day label appears exactly for other indexes; "Cerrado" appears exactly for closed entries, and an open entry reads its opening time, " - ", and its closing time, a missing time reading as nothing |
| PrivateDetailService.HoursCerradoOnlyWhenClosed | src/app/services/detalle-privado.service.ts:251-259 | an open entry's "open - close" text can never read "Cerrado", whatever the times |
| PrivateDetailService.HoursText | src/app/services/detalle-privado.service.ts:257-259 | a closed entry reads "Cerrado"; an open one reads its two times around " - ", and " - " alone when both are missing |
| PrivateDetailService.HandleError | src/app/services/detalle-privado.service.ts:296-325 | a client-side event gives "Error: " plus its message; 401, 403, 404 and 500 have fixed texts; any other status is spelled out with the response message; only a server 401 drops the stored token |
| PrivateDetailService.FindById | src/app/services/detalle-privado.service.ts:123-135 | the first business with the id, and None exactly when no business has it |
| PrivateDetailService.Alternative | src/app/services/detalle-privado.service.ts:154-185 | the fallback request's business on success; the 401, 403 and 404 texts; a generic text for any other failure |
| PrivateDetailService.GetBusinessDetails | src/app/services/detalle-privado.service.ts:76-185 | an id at or below zero and a missing token fail before any request; a well-formed list succeeds exactly when a business has the id, and yields the first business with that id, as `find` does; otherwise "not found in your list"; a server 401 on the list removes the token, so the fallback fails with the missing-token error; a malformed list, and any other failure whose message lacks "no encontrado", fall back to the alternative request |
| PublicDetailService.TranslateDay | src/app/services/detalle-publico.service.ts:76-87 | English day names in capitals map to Spanish names; any other text is unchanged |
| PublicDetailService.DayTablesAgree | src/app/services/detalle-publico.service.ts:76-87 | the public service's English table and the owner-side numeric table name the same seven days in the same Sunday-first order |
| PublicDetailService.FormatHours | src/app/services/detalle-publico.service.ts:89-95 | text with a dash reads "first - second" from the first two dash-separated pieces; text without a dash is unchanged |
| PublicDetailService.FormatRange | src/app/services/detalle-publico.service.ts:89-95 | a single range "a-b" becomes exactly "a - b" |
| PublicDetailService.FormatDropsExtraPieces | src/app/services/detalle-publico.service.ts:89-95 | anything after a second dash is dropped |
| PublicDetailService.FormatEntry | src/app/services/detalle-publico.service.ts:63-74 | the first space-separated token is the translated day; a missing second token or "CLOSED" reads "Cerrado"; otherwise the formatted hours |
| PublicDetailService.FormatSchedules | src/app/services/detalle-publico.service.ts:63-74 | one display row per schedule string, in order |
| PublicDetailService.FormatTypicalEntry | src/app/services/detalle-publico.service.ts:63-95 | "MONDAY 08:00-17:00" reads as the Spanish day with "08:00 - 17:00" |
| PublicDetailService.FormatBareDay | src/app/services/detalle-publico.service.ts:63-74 | a day with no hours reads as closed |
| DetailPage.NextImage | src/app/detalle-negocio/detalle-negocio.page.ts:101-105 | a valid index stays valid and steps forward, wrapping from the last photo to the first; nothing moves without photos |
| DetailPage.PrevImage | src/app/detalle-negocio/detalle-negocio.page.ts:107-113 | a valid index stays valid when stepping back; nothing moves without photos |
| DetailPage.PrevUndoesNext | src/app/detalle-negocio/detalle-negocio.page.ts:101-113 | on a valid index, going back undoes going forward and going forward undoes going back |
| DetailPage.SelectImage | src/app/detalle-negocio/detalle-negocio.page.ts:115-123 | jumps only to an index that names an existing photo, and stays put otherwise |
| DetailPage.CurrentImage | src/app/detalle-negocio/detalle-negocio.page.ts:387-398 | the photo at the index when it exists and is not empty, otherwise the fallback asset; never empty |
| DetailPage.CurrentImageOfExtracted | src/app/detalle-negocio/detalle-negocio.page.ts:387-398 | with the service's extracted URLs, a valid index always shows the real photo, never the fallback |
| DetailPage.TrimmedKey | src/app/detalle-negocio/detalle-negocio.page.ts:173-218 | a key that is neither undefined nor null is sent, trimmed; the others are left out |
| DetailPage.BooleanKey | src/app/detalle-negocio/detalle-negocio.page.ts:211-213 | a defined flag is sent as `Boolean(x)`: true exactly for a present true |
| DetailPage.BuildPayload | src/app/detalle-negocio/detalle-negocio.page.ts:173-218 | the name is sent trimmed whenever defined; the description whenever defined, trimmed, or empty when falsy; each of facebook, instagram, tiktok, website, e-mail, WhatsApp number and address exactly when neither `undefined` nor `null`, trimmed; the WhatsApp-orders flag as a boolean whenever defined; the coordinates only when defined and changed |
| DetailPage.Overwrite | src/app/detalle-negocio/detalle-negocio.page.ts:246 | one key of `Object.assign`: a carried key replaces the value, a missing key keeps it |
| DetailPage.PayloadCarriesName | src/app/detalle-negocio/detalle-negocio.page.ts:168-171 | once the name check passes, the payload carries the trimmed non-blank name, so the "no changes" branch at lines 223-227 can never be taken |
| DetailPage.PayloadTextsTrimmed | src/app/detalle-negocio/detalle-negocio.page.ts:173-218 | every text the payload carries is free of surrounding whitespace |
| DetailPage.Merge | src/app/detalle-negocio/detalle-negocio.page.ts:245-248 | `Object.assign`: every key the payload carries replaces the record's value, every key it leaves out keeps it, and id, status, photos, schedules, phone, delivery and sale place are unchanged |
| DetailPage.MergeIdempotent | src/app/detalle-negocio/detalle-negocio.page.ts:245-248 | applying the same payload twice equals applying it once |
| DetailPage.MergeThenRebuild | src/app/detalle-negocio/detalle-negocio.page.ts:173-248 | after a save the merged record is a fixed point: editing it untouched sends every key of the first payload (name, description, the seven trimmed texts, the flag) back with the same value, and no coordinates |
| DetailPage.RebuildKey | src/app/detalle-negocio/detalle-negocio.page.ts:183-209 | a trimmed text written into the record is sent back unchanged by the next edit |
| DetailPage.RebuildSocial | src/app/detalle-negocio/detalle-negocio.page.ts:183-193 | the facebook, instagram and tiktok texts survive a merge and a rebuild unchanged |
| DetailPage.RebuildContact | src/app/detalle-negocio/detalle-negocio.page.ts:195-209 | the website, e-mail, WhatsApp number and address survive a merge and a rebuild unchanged |
| DetailPage.PageSaveError | src/app/detalle-negocio/detalle-negocio.page.ts:266-279 | the page's own mapping logs out exactly on status 401; statuses 400, 401, 403 and 404 each show their own text; without a status it shows the caught message, or the generic "Error al actualizar el negocio" |
| DetailPage.SaveErrorAsWritten | src/app/detalle-negocio/detalle-negocio.page.ts:266-279 | as the code runs, the caught error is the service's plain error, so the toast is the service's message and the user is never logged out |
| DetailPage.SaveErrorAsWrittenIgnoresStatus | src/app/services/detalle-privado.service.ts:296-325 | as written, no response status reaches the page: a 401 shows the service's text and does not log out |
| DetailPage.SaveErrorIntended | src/app/detalle-negocio/detalle-negocio.page.ts:266-279 | the mapping the page was written for: it logs out exactly on 401; 400, 401, 403 and 404 show the page's own texts; an unlisted status shows the response message, or the generic text when that is empty |
| DetailPage.SaveErrorCounterexample | src/app/detalle-negocio/detalle-negocio.page.ts:266-279 | a concrete 401 on which the written and intended behaviours disagree on logging out |
| DetailPage.SaveBusinessChanges | src/app/detalle-negocio/detalle-negocio.page.ts:147-285 | no record or id 0 refuses; a blank name refuses; "nothing to save" never happens; with a record, an id and a name, the save succeeds exactly when the write does and fails exactly when it does not; a saved record is the merge of the payload built from the edited copy; a refused write is the as-written save error, which shows the service's message and never logs out, and a missing token shows the missing-token message |
| DetailPage.Linked | src/app/detalle-negocio/detalle-negocio.page.ts:292-312 | a handle that already is an http URL is kept; otherwise it gets the platform's prefix |
| DetailPage.OpenSocialMedia | src/app/detalle-negocio/detalle-negocio.page.ts:287-323 | unknown platforms and empty handles open nothing; a handle without "http" opens the platform's link; a handle starting with "http" is opened as it is exactly when longer than ten characters; a website is opened as it is exactly when longer than ten characters |
| DetailPage.OpenWhatsApp | src/app/detalle-negocio/detalle-negocio.page.ts:325-333 | a link is opened exactly when the number is there and keeps more than five digits, and it is "https://wa.me/" followed by those digits in order |
| DetailPage.DigitsIdempotent | src/app/detalle-negocio/detalle-negocio.page.ts:325-333 | removing non-digits a second time removes nothing more, so the link's number is already clean |
| Text.Digits | src/app/detalle-negocio/detalle-negocio.page.ts:327 | only digits remain, never more characters than given, and a string of digits is kept whole |
| Text.DigitsMembership | src/app/detalle-negocio/detalle-negocio.page.ts:327 | a character remains exactly when it is a digit of the number |
| Text.DigitsAppend | src/app/detalle-negocio/detalle-negocio.page.ts:327 | the digits of two texts joined are the digits of each, in order |
| DetailPage.OpenMaps | src/app/detalle-negocio/detalle-negocio.page.ts:335-343 | without coordinates nothing is opened; with coordinates a link is opened exactly when both parsed numbers are non-zero (so only for exactly one comma), and it quotes both numbers |
| DetailPage.CanEditBusiness | src/app/detalle-negocio/detalle-negocio.page.ts:440-445 | editing is allowed exactly for a loaded business that is VALIDATED, REJECTED or PENDING, so never for APPROVED |
| DetailPage.DeliveryText | src/app/detalle-negocio/detalle-negocio.page.ts:404-407 | delivery is announced exactly when the value is "SI" |
| DetailPage.SalePlaceText | src/app/detalle-negocio/detalle-negocio.page.ts:409-418 | a known code's label, the raw code otherwise, and "No especificado" when there is none |
| DeletionService.FirstLogo | src/app/services/eliminar-negocio.service.ts:232-236 | the index of the first photo typed LOGO, and None exactly when no photo is |
| DeletionService.ExtractLogoUrl | src/app/services/eliminar-negocio.service.ts:232-236 | the first LOGO photo's URL, else the first photo's URL, else the default asset |
| DeletionService.LogoComesFromPhotos | src/app/services/eliminar-negocio.service.ts:232-236 | the chosen logo is never empty, and is either the default asset or the URL of one of the photos |
| DeletionService.ListedOf | src/app/services/eliminar-negocio.service.ts:65-82 | a listed business keeps its id, is active exactly when VALIDATED, and falls back to "No especificado" for a missing name or e-mail |
| DeletionService.Flatten | src/app/services/eliminar-negocio.service.ts:171-182 | each display field falls back in order (own, nested, default text), so the name and requester are never empty; the justification is copied as it is, missing when the server omits it |
| DeletionService.GetDeletionRequests | src/app/services/eliminar-negocio.service.ts:154-185 | a bare array, `data` as an array and `data.content` each give their requests, flattened in order; any other shape gives none |
| DeletionService.GetDeletionRequestById | src/app/services/eliminar-negocio.service.ts:197-205 | the single request is flattened exactly as in the list |
| DeletionService.GetErrorMessage | src/app/services/eliminar-negocio.service.ts:238-254 | a known status's fixed text, regardless of the body; otherwise the body's message, then the response message, then a generic text |
| DeletionService.ErrorMessageNeverEmpty | src/app/services/eliminar-negocio.service.ts:238-254 | every failure yields a non-empty message |
| DeletionService.HandleError | src/app/services/eliminar-negocio.service.ts:36-42 | exactly a 401 logs the user out; the message comes from the table |
| DeletionService.RequestDeletionError | src/app/services/eliminar-negocio.service.ts:130-137 | a 409 is the "pending request exists" error; anything else goes through the general handler |
| DeletionService.AuthHeader | src/app/services/eliminar-negocio.service.ts:27-34 | a truthy token gives the bearer header; without one the user is logged out and the request fails with the missing-token message |
| DeletionService.MissingTokenLikeUnauthorized | src/app/services/eliminar-negocio.service.ts:27-42 | a missing token ends the session just as a server 401 does, with a different message |
| DeletionService.ConflictCaseAgrees | src/app/services/eliminar-negocio.service.ts:130-137 | the special 409 case says exactly what the general mapping would have said |
| DeletionPage.IsFormValid | src/app/eliminar-negocio/eliminar-negocio.page.ts:82-85 | valid exactly with a business, a reason and a justification that is not all whitespace |
| DeletionPage.CountStatus | src/app/eliminar-negocio/eliminar-negocio.page.ts:87-93 | how many requests carry a status, never more than there are requests |
| DeletionPage.Matches | src/app/eliminar-negocio/eliminar-negocio.page.ts:181-184 | a request matches when its business name, requester or justification (when present) contains the term, both lower-cased |
| DeletionPage.SearchThrows | src/app/eliminar-negocio/eliminar-negocio.page.ts:181-184 | the search test reaches `toLowerCase` on a missing justification: neither name matched and the request has none |
| DeletionPage.Search | src/app/eliminar-negocio/eliminar-negocio.page.ts:179-188 | an empty term shows every request; otherwise the search fails with a TypeError, leaving the shown list unchanged, exactly when some request throws, and shows the filtered list when none does |
| DeletionPage.JustifiedNeverThrows | src/app/eliminar-negocio/eliminar-negocio.page.ts:179-188 | when every request has a justification, the search always shows the filtered list |
| DeletionPage.StatusCounts | src/app/eliminar-negocio/eliminar-negocio.page.ts:87-93 | the three counters equal the number of requests with each status, and never add up to more than the list |
| DeletionPage.CountsCoverList | src/app/eliminar-negocio/eliminar-negocio.page.ts:87-93 | when every status is one of the three, the counters add up to the list length |
| DeletionPage.ApplyFilters | src/app/eliminar-negocio/eliminar-negocio.page.ts:179-188 | an empty term keeps every request; otherwise only requests from the list that match, never more than the list |
| DeletionPage.ApplyFiltersAppend | src/app/eliminar-negocio/eliminar-negocio.page.ts:179-188 | filtering two joined lists gives the filtered first list followed by the filtered second, so the matches keep input order and duplicates |
| DeletionPage.FilterMembership | src/app/eliminar-negocio/eliminar-negocio.page.ts:179-188 | a request is shown exactly when it is in the list and matches the term (both directions) |
| DeletionPage.MatchesOwnName | src/app/eliminar-negocio/eliminar-negocio.page.ts:179-188 | searching for a request's own business name finds it, whatever the case |
| DeletionPage.StatusColor | src/app/eliminar-negocio/eliminar-negocio.page.ts:200-207 | the color of each status, and "medium" for any other |
| DeletionPage.StatusLabel | src/app/eliminar-negocio/eliminar-negocio.page.ts:209-216 | the Spanish label of each status, and the raw status for any other |
| DeletionPage.StatusTablesDistinguish | src/app/eliminar-negocio/eliminar-negocio.page.ts:200-216 | distinct known statuses get distinct colors and distinct labels |
| DeletionPage.FindMotivo | src/app/eliminar-negocio/eliminar-negocio.page.ts:218-221 | the first reason with the given code, as `find` returns it, and None exactly when there is none |
| DeletionPage.MotivoLabel | src/app/eliminar-negocio/eliminar-negocio.page.ts:218-221 | a known reason code reads as its label; an unknown one as itself |
| DeletionPage.MotivoLabelsDistinct | src/app/eliminar-negocio/eliminar-negocio.page.ts:57-64 | distinct known reasons read differently |
| DeletionPage.ConfirmDeletion | src/app/eliminar-negocio/eliminar-negocio.page.ts:96-117 | the confirmation is asked exactly when a business id and name are known, and it names the business |
| DeletionPage.SendDeletionRequest | src/app/eliminar-negocio/eliminar-negocio.page.ts:127-151 | success shows the confirmation and closes the modal; a failure keeps it open and shows the service's message, the "pending request" text for a 409 |
| PublicList.RequestedPage | src/app/pages/negocios/negocios.page.ts:51 | the backend page is the shown page minus one, never below zero |
| PublicList.TotalPages | src/app/pages/negocios/negocios.page.ts:60 | the smallest page count that holds every element: zero exactly for no elements |
| PublicList.OnResponse | src/app/pages/negocios/negocios.page.ts:49-81 | a page past the end reloads the last page; any other page applies the response: its content is shown, page 0 means exactly "no results", and the current page is within range and equals the asked page when that is valid |
| PublicList.ReloadSettles | src/app/pages/negocios/negocios.page.ts:63-66 | the page a reload asks for is accepted by the same response, and it is the last page |
| PublicList.PreviousPage | src/app/pages/negocios/negocios.page.ts:86-90 | going back is possible exactly past the first page, and asks for the page before |
| PublicList.NextPage | src/app/pages/negocios/negocios.page.ts:92-96 | going forward is possible exactly before the last page, and asks for the page after |
| PublicList.NavigationStaysInRange | src/app/pages/negocios/negocios.page.ts:49-96 | from a shown page, either button asks for a page the next response accepts without a reload, one step away |
| Paging.Prepared | src/app/detalle-privado/detalle-privado.page.ts:58-62 | a reset empties the list and goes back to page 0 with more data expected; otherwise the state is kept |
| Paging.LoadPrivate | src/app/detalle-privado/detalle-privado.page.ts:53-90 | a load in flight makes a new one do nothing; a page is appended and advances while the server reports later pages; failures keep the list; only messages mentioning "autenticado" log out |
| Paging.LoadOwn | src/app/mis-negocios/mis-negocios.page.ts:56-100 | the same guard and reset; a page is appended and advances unless it is flagged last; only an expired-session message logs out |
| Paging.LoadOwnPagesAccumulates | src/app/mis-negocios/mis-negocios.page.ts:56-100 | after a reset and successive appends, the list is all the pages joined in order and the next page is their count |
| Paging.AppendKeepsPrefix | src/app/detalle-privado/detalle-privado.page.ts:69-77 | appending never reorders or drops what is shown, and the page number never goes back |
| Paging.FindCategory | src/app/detalle-privado/detalle-privado.page.ts:104-108 | the first category with the id, and None exactly when there is none |
| Paging.FoundName | src/app/mis-negocios/mis-negocios.page.ts:113-116 | when a position holds the first category with the id, the lookup returns that category |
| Paging.FirstUnique | src/app/mis-negocios/mis-negocios.page.ts:113-116 | only one position is the first with a given id |
| Paging.PrivateCategoryName | src/app/detalle-privado/detalle-privado.page.ts:104-108 | nothing for an empty id; otherwise the name of the first category with that id, or nothing when none has it |
| Paging.OwnCategoryName | src/app/mis-negocios/mis-negocios.page.ts:113-116 | the name of the first category with that id, or nothing when none has it |
| Paging.CategoryLookupsAgree | src/app/mis-negocios/mis-negocios.page.ts:113-116 | the two pages' category lookups differ only for the empty id |
| Uploads.Extension | src/app/editar-negocio/editar-negocio.page.ts:345-382 | the extension never contains a dot, and is the whole name lower-cased when there is no dot |
| Uploads.ExtensionOfDotted | src/app/editar-negocio/editar-negocio.page.ts:345-382 | the extension of "base.ext" is the lower-cased ext, whatever the base holds |
| Uploads.Keep | src/app/editar-negocio/editar-negocio.page.ts:345-382 | the kept files pass the checks and come from the chosen files |
| Uploads.KeepAppend | src/app/editar-negocio/editar-negocio.page.ts:345-382 | the kept files of two joined lists are those of the first followed by those of the second, so `filter` keeps input order and duplicates, and the first valid file comes first |
| Uploads.KeepMembership | src/app/editar-negocio/editar-negocio.page.ts:345-382 | a file is kept exactly when it was chosen and passes (both directions) |
| Uploads.KeepAll | src/app/editar-negocio/editar-negocio.page.ts:345-382 | when every file passes, the list is kept as it is |
| EditBusinessPage.OnFileChange | src/app/editar-negocio/editar-negocio.page.ts:337-407 | no accepted file changes nothing; the first accepted file becomes the logo; the accepted files are appended to the carousel unless that passes five photos; nothing unaccepted gets in |
| EditBusinessPage.Accepted | src/app/editar-negocio/editar-negocio.page.ts:345-381 | a picture is taken when its extension is jpg, jpeg or png, it is at most 2 MiB, and the dimension check does not say it is too small (a check that throws lets it through) |
| EditBusinessPage.CarouselBounded | src/app/editar-negocio/editar-negocio.page.ts:389-401 | a carousel within five photos stays within five, and its earlier photos stay in place |
| EditBusinessPage.AcceptedPicture | src/app/editar-negocio/editar-negocio.page.ts:345-382 | a small enough jpg, jpeg or png that is not reported too small is accepted, whatever the case of its extension |
| EditBusinessPage.RemoveCarouselPhoto | src/app/editar-negocio/editar-negocio.page.ts:445-448 | removes exactly the photo at an existing index, leaves the carousel alone past the end, and never touches the logo |
| EditBusinessPage.RemoveKeepsBound | src/app/editar-negocio/editar-negocio.page.ts:445-448 | removing never grows the carousel |
| EditBusinessPage.RemoveFile | src/app/editar-negocio/editar-negocio.page.ts:437-443 | only the logo can be removed this way; the carousel target changes nothing |
| EditBusinessPage.SubmitNumbers | src/app/editar-negocio/editar-negocio.page.ts:183-197 | an invalid form sends nothing; the phone carries its country code; WhatsApp carries its code when orders are accepted and is empty otherwise |
| EditBusinessPage.GenericMessage | src/app/editar-negocio/editar-negocio.page.ts:123-141 | exactly the six known error keys have a message, and none is empty |
| EditBusinessPage.FirstKnown | src/app/editar-negocio/editar-negocio.page.ts:123-141 | the first error, in key order, that has a message; None exactly when none has |
| EditBusinessPage.GetErrorMessage | src/app/editar-negocio/editar-negocio.page.ts:123-141 | nothing for an unknown control or one without errors; otherwise never empty: the first known error's message, or "Campo inválido" |
| RegisterBusinessPage.ClearFile | src/app/registro-emprendimiento/registro-emprendimiento.page.ts:276-286 | the logo and signature clear themselves; the identity document and, as written, the carousel both clear the identity document; the carousel is never touched |
| RegisterBusinessPage.OnFileChange | src/app/registro-emprendimiento/registro-emprendimiento.page.ts:203-262 | no file changes nothing; no acceptable file clears the slot; otherwise the first accepted file fills a single slot and the carousel is replaced by all accepted files |
| RegisterBusinessPage.Accepted | src/app/registro-emprendimiento/registro-emprendimiento.page.ts:217-238 | a file is taken when its extension is pdf, jpg, jpeg or png and it is at most 2 MiB |
| RegisterBusinessPage.CanSubmit | src/app/registro-emprendimiento/registro-emprendimiento.page.ts:195-201 | the form is sent only when valid and an identity document is chosen |
| RegisterBusinessPage.OnFileChangeKeepsAccepted | src/app/registro-emprendimiento/registro-emprendimiento.page.ts:217-238 | choosing files never lets a file with a wrong extension or too large into any slot |
| RegisterBusinessPage.RejectedCarouselDropsCedula | src/app/registro-emprendimiento/registro-emprendimiento.page.ts:240-244 | a carousel choice with nothing acceptable keeps the carousel but drops the identity document, which then blocks sending |
| RegisterBusinessPage.AddSchedule | src/app/registro-emprendimiento/registro-emprendimiento.page.ts:118-120 | one more empty row at the end, the others unchanged |
| RegisterBusinessPage.RemoveSchedule | src/app/registro-emprendimiento/registro-emprendimiento.page.ts:123-125 | removes exactly the row at an existing index, and nothing past the end |
| RegisterBusinessPage.AddThenRemove | src/app/registro-emprendimiento/registro-emprendimiento.page.ts:118-125 | removing the row just added gives the rows back |
| RegistrationService.Clean | src/app/services/registroo.service.ts:43-52 | a missing value is sent as the empty string and a present one as its trim; so the result is empty exactly for a missing or all-whitespace field, and a trimmed value is sent as it is |
| RegistrationService.TrimRequest | src/app/services/registroo.service.ts:43-52 | each of the eight keys carries its field's cleaned value, so every sent value is trimmed |
| RegistrationService.TrimRequestIdempotent | src/app/services/registroo.service.ts:43-52 | building the body again from a built body changes nothing |
| RegistrationService.RegisterUser | src/app/services/registroo.service.ts:36-61 | posts to the user endpoint a body holding each field cleaned, so every value is trimmed |
| RegistrationService.CreateNewAdmin | src/app/services/registroo.service.ts:64-89 | posts to the administrator endpoint a body holding each field cleaned, so every value is trimmed |
| RegistrationService.BodiesAgree | src/app/services/registroo.service.ts:36-89 | both endpoints receive the same body for the same fields, at different paths |
| RegisterUserPage.EmptyKeys | src/app/registro-app/registro-app.page.ts:119-122 | the listed keys are among the body's keys, never more than there are |
| RegisterUserPage.EmptyFieldsMessage | src/app/registro-app/registro-app.page.ts:119-121 | the error names the empty keys joined with ", " |
| RegisterUserPage.EmptyKeysMembership | src/app/registro-app/registro-app.page.ts:119-122 | a key is listed exactly when its value is empty (both directions) |
| RegisterUserPage.TogglePassword | src/app/registro-app/registro-app.page.ts:53-55 | flips the visibility and nothing else |
| RegisterUserPage.ToggleInvolution | src/app/registro-app/registro-app.page.ts:53-55 | toggling twice restores the page |
| RegisterUserPage.ClearForm | src/app/registro-app/registro-app.page.ts:217-222 | an emptied form, user registration, the password hidden |
| RegisterUserPage.ClearedFormIsEmpty | src/app/registro-app/registro-app.page.ts:107-122 | a cleared form would report all eight fields as empty, so it sends nothing |
| RegisterUserPage.BadRequestMessage | src/app/registro-app/registro-app.page.ts:164-171 | a 400 shows a non-empty text body, else the body's message, else the fixed text |
| RegisterUserPage.RegistrationErrorMessage | src/app/registro-app/registro-app.page.ts:153-192 | fixed texts for 0, 409, 422 and 500; the 400 rule; any other status falls back to the body's message, then the response message, then a generic text |
| RegisterUserPage.RegistrationErrorNeverEmpty | src/app/registro-app/registro-app.page.ts:153-192 | a failed registration always has something to show |
| RegisterUserPage.Submit | src/app/registro-app/registro-app.page.ts:87-198 | an invalid form does nothing; empty fields are reported before any request; a request carries no empty value and goes to the administrator endpoint exactly for "admin"; a request is sent exactly for a valid form with no empty field; success clears the form; a failed reply always ends as a request failure, which keeps the form and shows the mapped message |
| RegisterUserPage.NoEmptyValues | src/app/registro-app/registro-app.page.ts:119-122 | when no key is listed as empty, every value is filled |
| RegisterUserPage.BlankFieldIsReported | src/app/registro-app/registro-app.page.ts:107-122 | a whitespace-only username never reaches the server: it is named in the empty-fields error |
| RegisterUserPage.FieldLabel | src/app/registro-app/registro-app.page.ts:268-281 | the Spanish label of a known field, the name itself otherwise |
| RegisterUserPage.LabelsCoverKeys | src/app/registro-app/registro-app.page.ts:268-281 | the relabelled fields are exactly the eight keys of the request body |
| PromotionForms.OnFileSelected | src/app/crear-promocion/crear-promocion.page.ts:75-95 | no file, a file over 2 MB (checked first) and a non-JPG/PNG type each keep the previous image, the last two with their alert; a new image passed both checks |
| PromotionForms.FileSelectedIff | src/app/editar-promocion/editar-promocion.page.ts:83-110 | an image is taken, without an alert, exactly when it passes both checks |
| PromotionForms.Validate | src/app/crear-promocion/crear-promocion.page.ts:120-140 | passes exactly when the four texts are filled and the end is not on or before the start; the required-fields alert comes first |
| PromotionForms.ConfirmCreate | src/app/crear-promocion/crear-promocion.page.ts:111-154 | an image is required first; the dialog closes exactly when the checks pass, handing back the promotion for this business and the image |
| PromotionForms.StartEdit | src/app/editar-promocion/editar-promocion.page.ts:75-81 | the copy gains the misspelled `bussinessId` key and is otherwise the promotion; the preview shows the current image or nothing |
| PromotionForms.ConfirmEdit | src/app/editar-promocion/editar-promocion.page.ts:127-163 | no image required; the dialog closes exactly when the checks pass, with the original promotion's business id |
| PromotionForms.DialogsAgree | src/app/editar-promocion/editar-promocion.page.ts:127-163 | with an image chosen, the create and edit dialogs accept, reject and hand back alike |
| PromotionForms.NewPromotionNeedsInput | src/app/crear-promocion/crear-promocion.page.ts:52-58 | a freshly opened create dialog cannot be confirmed |
| PromotionsPage.ActiveOnEveryDayOfRange | src/app/promociones/promociones.page.ts:190-196 | with date-only dates, the badge is on at every instant of every day from the first to the last, both included |
| PromotionsPage.IsPromotionActive | src/app/promociones/promociones.page.ts:190-196 | the badge as the date range means it: today's calendar day between the two parsed days, both included |
| PromotionsPage.ActiveAsWritten | src/app/promociones/promociones.page.ts:190-196 | the badge as written: the current instant between the two parsed instants; whatever it shows as active, the day check shows as active too |
| PromotionsPage.ActiveAsWrittenMissesLastDay | src/app/promociones/promociones.page.ts:190-196 | as written, a promotion of a single day is shown inactive one millisecond into that day |
| PromotionsPage.ActiveAsWrittenIsActive | src/app/promociones/promociones.page.ts:190-196 | whatever the written check shows as active, the day check does too |
| PromotionsPage.ChipColor | src/app/promociones/promociones.page.ts:199-208 | the table's color for a known type, "medium" for any other |
| PromotionsPage.TypeText | src/app/promociones/promociones.page.ts:211-220 | the table's text for a known type, the code itself for any other |
| PromotionsPage.TablesAgree | src/app/promociones/promociones.page.ts:199-220 | a type gets the default color exactly when it is shown by its raw code; the 2x1 and combo types are among those |
| PromotionsPage.OnLoad | src/app/promociones/promociones.page.ts:90-113 | a successful answer replaces the list; anything else keeps it and alerts; exactly a 401 logs out |
| PromotionsPage.OnCreate | src/app/promociones/promociones.page.ts:138-161 | the list is reloaded exactly after a successful create; exactly a 401 logs out; 400 and unsuccessful answers have their alerts |
| PromotionsPage.LogoutAgrees | src/app/promociones/promociones.page.ts:90-161 | loading and creating log out for exactly the same failure |
| PublicPromotions.TypeLabel | src/app/promociones-publicas/promociones-publicas.page.ts:38-40 | a known type's label, "Promoción" for any other; never empty |
| PublicPromotions.FilterMatchesLabels | src/app/promociones-publicas/promociones-publicas.page.ts:17-36 | the filter starts with "all", and its other entries are exactly the labelled types, each showing the label the cards use |
| PublicPromotions.SelectType | src/app/promociones-publicas/promociones-publicas.page.ts:27-30 | records the chosen type, keeps the list, and asks for the list filtered by that type |
| PublicPromotions.OnPublicLoad | src/app/promociones-publicas/promociones-publicas.page.ts:51-64 | a successful answer replaces the list; anything else keeps it; the chosen type is kept |
| Session.GetItem | src/app/services/auth.service.ts:59-61 | a stored value exactly when the key is present |
| Session.TokenText | src/app/services/auth.service.ts:38-41 | the token is stored as it is, a missing one as the text "undefined" and a `null` one as "null"; a stored token text is never empty unless the token itself was |
| Session.StoreAuthData | src/app/services/auth.service.ts:38-41 | the token and the serialized answer are written, and every other key is unchanged |
| Session.CheckAuthState | src/app/services/auth.service.ts:43-46 | the user is authenticated exactly when a non-empty token is stored |
| Session.IsAuthenticated | src/app/services/auth.service.ts:48-50 | the flag the service last published |
| Session.Login | src/app/services/auth.service.ts:23-36 | a truthy status stores the answer, sets the flag and goes home; otherwise nothing changes |
| Session.Logout | src/app/services/auth.service.ts:52-57 | the token and user data are removed, every other key is kept, the flag is off, and the route is the login page |
| Session.GetToken | src/app/services/auth.service.ts:59-61 | the stored token exactly when there is one |
| Session.LogoutForgetsUser | src/app/services/auth.service.ts:43-57 | after a logout, a restarted service sees no user and hands out no token |
| Session.LoginSurvivesRestart | src/app/services/auth.service.ts:23-46 | after a login, a restarted service sees the user exactly when the token text is non-empty, and a missing or `null` token still counts, as "undefined" or "null" |
| Session.CanActivate | src/app/guards/auth.guard.ts:11-28 | access is granted exactly with a non-empty token; otherwise the address is remembered and the user is sent to the login page |
| Session.GuardDependsOnTokenOnly | src/app/guards/auth.guard.ts:16-19 | the decision depends only on the stored token, not on the address or any other key |
| Session.SubmitLogin | src/app/login/login.page.ts:77-127 | an invalid form sends nothing; the e-mail is sent as the username; wrong credentials and a failed request (no connection or an error status) have their errors; on success the answer is stored, and the page goes to the remembered address (removing it) or home, or closes the modal |
| Session.GuardThenLoginReturns | src/app/login/login.page.ts:110-127 | a visitor stopped by the guard lands, after logging in on the page, on the address they tried, with the address forgotten and the token stored |
| Session.ModalKeepsPending | src/app/login/login.page.ts:115-116 | logging in through the modal leaves the remembered address in place |

## Left out

- HTTP transport, headers, toasts, alerts, loading indicators and navigation calls: each operation takes the server's answer as a parameter and returns the message or route it would show.
- `getAuthHeaders` of the owner-side business service: only its missing-token failure is modelled. It is the `hasToken` parameter of `PrivateDetailService.GetBusinessDetails`, the failure after a 401 in that function, and `NoTokenThrown` in the save flow. The deletion service's `getAuthHeaders` also logs out without a token; that is `DeletionService.AuthHeader`. The model does not thread it through every request of that service; a missing token there is the same failure for each.
- GetBusinessDetails: after a server 401 on the list request, the contract gives the missing-token failure unless the 401 text mentioned "no encontrado". It plainly does not, but deciding `includes` on that 51-character text is beyond the solver's budget, so the contract keeps the condition as the code has it.
- ToLower (`Text.ToLower`): lower-cases only the Basic Latin and Latin-1 capitals, not the rest of Unicode (Greek, Cyrillic, "İ" and so on). So `DeletionPage.Matches`, `DeletionPage.ApplyFilters`, `DeletionPage.Search` and `Uploads.Extension` agree with `toLowerCase` only on those alphabets.
- `loadBusinessDetails` of the detail and edit pages, `ngOnInit` and the category loaders: they only call modelled services and copy the result into the page.
- The public service's `getCoordinatesArray` and `getBusinessById`: a plain split and a plain request.
- `getEliminationReasons`, `requestDeletion` and `updateDeletionRequestStatus`: no page of the modelled core reaches them.
- The multipart/JSON update strategy and the timed re-fetch after a save: the code has neither; `updateBusiness` takes the id and payload, and a third argument passed by the page is ignored. This is why `DetailPage.SaveBusinessChanges` passes nothing else to the write.
- The Angular validators (`Validators.required`, `email`, `pattern`, `minLength`): their verdict is the `formValid` input. So is the list of invalid fields that `validateForm` of the registration page shows.
- `getErrorMessage`, `hasError` and `validateForm`'s messages of the user-registration page, and `getErrorMessage` of the business-registration page: display texts over the validator errors.
- The multipart body of the business registration and the promotion create request: `FormData` assembly only.
- `abrirModalCrear`, `doRefresh`, `loadMore`, `onDrop` and `onDragOver`: they open dialogs or forward to modelled operations.
- The Leaflet map of the edit page, geolocation, and `callPhone`/`sendEmail`: browser and device integrations.
- `parseFloat`, number printing and `new Date(...)`: parameters (`parse`, `show`, `DateParser`). Floating-point arithmetic is not modelled.
- `validateImageDimensions`: its result is the `dimensions` field of a file (fits, too small, or throws).
- Lookups in the object-literal tables (`translateDay`, `getFieldLabel`, the chip and label tables) with inherited keys such as "constructor": the model treats them as plain maps.
- `EditBusinessPage.RemoveCarouselPhoto` and `RegisterBusinessPage.RemoveSchedule`: the contracts say nothing about negative indexes, which `splice` and `removeAt` count from the end; the templates only pass indexes of shown items.
- DetailPage.OpenSocialMedia: the `url.length > 10` guard on http handles is compared with `|s|`, which counts Unicode scalar values, while JavaScript's `length` counts UTF-16 code units. A handle with characters outside the Basic Multilingual Plane (an emoji, say) is longer in the source, so `"http://😀😀"` (length 11, `|s|` 9) opens there but not in the model. The two agree on text made only of Basic Multilingual Plane characters.
- `Paging.LoadPrivate`: the logout branch needs a message containing "autenticado", which none of the service's messages contains; it is modelled as written.

## Findings

| source | as written | input that shows it | evidently intended | confidence | as-written member | corrected member |
|---|---|---|---|---|---|---|
| src/app/detalle-negocio/detalle-negocio.page.ts:266-279 | the save handler maps `error.status` (401 logs out, 403/404/400 texts), but the service's `handleError` (src/app/services/detalle-privado.service.ts:296-325) rethrows a plain `Error` with only a message, so the status is always undefined | a save answered with `HttpError(401, "Unauthorized")`: the service's 401 text is shown instead of the page's, and `authService.logout()` is never called (the service only removes the stored token) | the page's mapping sees the response status, so a 401 shows its own text and logs the user out | not executed | DetailPage.SaveErrorAsWritten, DetailPage.SaveErrorCounterexample, DetailPage.SaveBusinessChanges | DetailPage.SaveErrorIntended |
| src/app/promociones/promociones.page.ts:190-196 | `isPromocionActive` compares the current instant with `new Date(fechaPromoFin)`, which for a date-only text is midnight UTC at the start of the last day | a promotion starting and ending on day d, checked at d·86 400 000 + 1 ms: shown inactive on its only day | active on every day from the start date to the end date, both included | not executed | PromotionsPage.ActiveAsWrittenMissesLastDay | PromotionsPage.ActiveOnEveryDayOfRange |
