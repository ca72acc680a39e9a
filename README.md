# ESS + BROWNE site: view logic in Dafny

This project models the view logic of the architecture firm's website. The rest of the site is static markup. Four pieces are modelled:

- **Portfolio** (`portfolio.dfy`): a fixed catalogue of eight project records, each `completed`, `in-progress` or `not-started`, and a four-button status filter. The filter starts at `all`. `filteredProjects` is the whole list under `all`, and otherwise a stable filter on the status string.
- **Project details** (`project_details.dfy`): the `project`/`isLoading` state pair and `fetchProject`. The query result is an input, either a delivered row or a failure. The model includes the `!id` early return, the three-way render decision (skeleton, "Project Not Found", detail) and the four image slots derived from `gallery_urls`.
- **Admin form** (`admin.dfy`): the schema's minimum-length rules on title (2), category (2) and description (10), with their messages. It also covers the `image` key, which takes any value, the empty default values, and the reset after a successful submit.
- **Protected route** (`protected_route.dfy`): the three-state session cell (`undefined`, `null`, a session). The initial lookup and every auth-state event overwrite it. The cell decides what is rendered: nothing, a replacing redirect to `/login`, or the children.

`wrappers.dfy` holds the `Option` type. It stands for JavaScript's `undefined`/`null`.

On the detail page (`client/pages/ProjectDetails.tsx`, lines 22-46) the `catch` leaves `project` as it was, and nothing sets `isLoading` back to true when the route `id` changes. So after a successful fetch, a failed fetch for a new id keeps the previous project on screen (`FailedRefetchKeepsPreviousProject`).

## Model

| member | source | states |
|---|---|---|
| Portfolio.LabelsDistinct | client/pages/Portfolio.tsx:4 | the four filter strings are pairwise distinct, so comparing labels with `===` is the same as comparing filters |
| Portfolio.FilterBy | client/pages/Portfolio.tsx:79 | `projects.filter` never returns more records than it was given |
| Portfolio.FilterByKeeps | client/pages/Portfolio.tsx:79 | every record the filter returns passes the `p.status === activeFilter` callback |
| Portfolio.FilterByIsSubsequence | client/pages/Portfolio.tsx:79 | the filter's result is an order-preserving subsequence of its input |
| Portfolio.FilterByMultiplicity | client/pages/Portfolio.tsx:79 | a record occurs in the result as often as in the input if the callback keeps it, and never otherwise |
| Portfolio.FilteredProjects | client/pages/Portfolio.tsx:76-79 | the shown list is never longer than the catalogue |
| Portfolio.FilterAllUnchanged | client/pages/Portfolio.tsx:76-78 | under `all` the list is returned unchanged: same records, same order, same length |
| Portfolio.FilterSound | client/pages/Portfolio.tsx:79 | under a status filter every shown record has that status |
| Portfolio.FilterComplete | client/pages/Portfolio.tsx:79 | under a status filter every record of that status is shown, with its multiplicity, and no record of another status is |
| Portfolio.FilterIsSubsequence | client/pages/Portfolio.tsx:76-79 | for every filter the shown list is an order-preserving subsequence of the catalogue and contains only catalogue records |
| Portfolio.StatusesPartition | client/pages/Portfolio.tsx:79 | the three status filters split any list: their result lengths add up to its length |
| Portfolio.KeepsStatus | client/pages/Portfolio.tsx:79 | under a status filter the callback keeps a record exactly when its status is that status |
| Portfolio.FilterByIds | client/pages/Portfolio.tsx:79 | the ids a status filter shows are the ids of the records of that status, in catalogue order |
| Portfolio.CatalogueStatuses | client/pages/Portfolio.tsx:9-74 | the literal has eight records with ids 1..8; records 1, 2, 4, 6, 8 are completed, 3 and 5 in progress, 7 not started |
| Portfolio.CatalogueIds | client/pages/Portfolio.tsx:9-74 | the literal's ids are 1 to 8 in order, so the grid keys are distinct |
| Portfolio.CatalogueIdsByStatus | client/pages/Portfolio.tsx:9-74 | the ids of the completed records are [1,2,4,6,8], of the in-progress ones [3,5], of the not-started one [7] |
| Portfolio.CatalogueFilters | client/pages/Portfolio.tsx:9-79 | on the fixed data `all` gives ids 1..8, `completed` gives [1,2,4,6,8], `in-progress` gives [3,5] and `not-started` gives [7]; the three counts sum to 8 |
| Portfolio.ButtonFor | client/pages/Portfolio.tsx:129-168 | each filter has exactly one button that sets it, and while that filter is active that button alone gets the active style |
| Portfolio.PortfolioView.constructor | client/pages/Portfolio.tsx:7 | the view starts with the `all` filter |
| Portfolio.PortfolioView.Click | client/pages/Portfolio.tsx:129-168 | clicking button `i` sets `activeFilter` to that button's own literal, after which button `i` alone is styled active |
| Portfolio.PortfolioView.Shown | client/pages/Portfolio.tsx:76-79 | the grid shows an order-preserving subsequence of the catalogue, at most 8 records |
| ProjectDetails.DeriveImages | client/pages/ProjectDetails.tsx:63-68 | slot k (k = 0..3) is `gallery[k]` when that index exists and the string is non-empty, else `image_url`; an absent `gallery_urls` puts the cover in every slot |
| ProjectDetails.EmptyGalleryUsesCover | client/pages/ProjectDetails.tsx:64-68 | an empty gallery makes all four slots equal `image_url` |
| ProjectDetails.TwoEntryGallery | client/pages/ProjectDetails.tsx:64-68 | a gallery of two non-empty entries gives `gallery[0]`, `gallery[1]`, `image_url`, `image_url` |
| ProjectDetails.ExtraEntriesIgnored | client/pages/ProjectDetails.tsx:65-68 | gallery entries past index 3 never change any slot |
| ProjectDetails.SlotsIndependent | client/pages/ProjectDetails.tsx:65-68 | replacing gallery entry j leaves every other slot as it was |
| ProjectDetails.RenderView | client/pages/ProjectDetails.tsx:48-61 | loading gives the skeleton; otherwise a missing project gives "Project Not Found" with a link to `/portfolio`; otherwise the detail view with the derived images; exactly one applies |
| ProjectDetails.AfterFetch | client/pages/ProjectDetails.tsx:26-43 | without an id nothing changes; otherwise `isLoading` ends false, a delivered row becomes `project`, and a failure leaves `project` as it was |
| ProjectDetails.MissingIdStaysLoading | client/pages/ProjectDetails.tsx:26-50 | with no route id no query runs, the state stays initial and the page stays on the skeleton |
| ProjectDetails.FetchSuccessShowsDetail | client/pages/ProjectDetails.tsx:36-41 | a delivered row is stored, loading ends, and the detail view of that row renders |
| ProjectDetails.FetchFailureShowsNotFound | client/pages/ProjectDetails.tsx:38-61 | a failed first fetch leaves `project` null and ends loading, so "Project Not Found" with the `/portfolio` link renders |
| ProjectDetails.FailedRefetchKeepsPreviousProject | client/pages/ProjectDetails.tsx:22-46 | after a successful fetch, a failed fetch for a new id keeps the earlier project's detail view |
| ProjectDetails.DetailView.constructor | client/pages/ProjectDetails.tsx:19-20 | the component starts with `project` null and `isLoading` true |
| ProjectDetails.DetailView.FetchProject | client/pages/ProjectDetails.tsx:26-43 | running `fetchProject` moves the state exactly as `AfterFetch` says |
| ProjectDetails.DetailView.Render | client/pages/ProjectDetails.tsx:48-61 | the render branch read off the current state: skeleton iff loading, not-found iff loaded with no project, detail iff loaded with a project |
| Admin.CheckMin | client/pages/Admin.tsx:20-28 | one minimum-length rule reports at most one issue, and it reports its own field and message exactly when the text is shorter than the minimum |
| Admin.Validate | client/pages/Admin.tsx:19-30 | the form is valid iff title has length >= 2, category >= 2 and description >= 10; a field is reported, with its own message, iff it fails its rule; issues come in schema order (title, category, description), so no field is reported twice |
| Admin.IssuesInSchemaOrder | client/pages/Admin.tsx:19-30 | concatenating the three single-field rule results keeps exactly their issues and orders them title, category, description |
| Admin.ImageUnconstrained | client/pages/Admin.tsx:29 | the `image` value never affects validation |
| Admin.DefaultsFailEveryField | client/pages/Admin.tsx:38-42 | the empty default values fail the title, category and description rules, in that order, each with its message |
| Admin.AdminForm.constructor | client/pages/Admin.tsx:36-43 | the form starts at the default values |
| Admin.AdminForm.Edit | client/pages/Admin.tsx:82-139 | typing into a field control replaces that field's text and leaves the other fields and the image alone |
| Admin.AdminForm.Submit | client/pages/Admin.tsx:46-56 | an invalid submit reports the issues and keeps the values; a valid one hands the values to the submit handler and resets the form to its defaults |
| ProtectedRoute.Deliver | client/components/ProtectedRoute.tsx:11-20 | a delivered session value stored in the cell is never `undefined`: it is null exactly when no session was delivered, and otherwise holds the delivered session |
| ProtectedRoute.Decide | client/components/ProtectedRoute.tsx:25-36 | `undefined` renders nothing, null redirects to `/login` with replace, a session renders the children; exactly one applies |
| ProtectedRoute.LastDeliveryWins | client/components/ProtectedRoute.tsx:11-20 | after any run of lookups and auth-change events the cell holds the last delivered value |
| ProtectedRoute.SettledAfterDelivery | client/components/ProtectedRoute.tsx:11-36 | after at least one delivery the gate renders a redirect or the children, never nothing; it is the children iff the last delivery carried a session |
| ProtectedRoute.NothingBeforeDelivery | client/components/ProtectedRoute.tsx:7-28 | before any delivery the cell is `undefined` and nothing renders |
| ProtectedRoute.Gate.constructor | client/components/ProtectedRoute.tsx:7 | the session cell starts `undefined`, with no subscription yet |
| ProtectedRoute.Gate.Mount | client/components/ProtectedRoute.tsx:9-23 | the effect starts the one session lookup and subscribes to auth-state events, leaving the cell alone |
| ProtectedRoute.Gate.SessionLoaded | client/components/ProtectedRoute.tsx:11-13 | the callback of the pending lookup overwrites the cell with the delivered value, and the lookup is then complete |
| ProtectedRoute.Gate.AuthStateChanged | client/components/ProtectedRoute.tsx:16-20 | each auth-change event overwrites the cell while subscribed, and later events change nothing |
| ProtectedRoute.Gate.Unmount | client/components/ProtectedRoute.tsx:22 | the cleanup releases the subscription and leaves the cell alone |
| ProtectedRoute.Gate.Render | client/components/ProtectedRoute.tsx:25-36 | nothing exactly while the cell is `undefined`, a replacing redirect to `/login` exactly while it is null, the children exactly while it holds a session |

## Left out

- The home, about and contact pages, the sticky services section and the scroll-animation hook: they are static markup, fixed text and images, or floating-point animation interpolation.
- The data service client (`client/lib/supabase.ts`) is not part of this model. That covers query building, `.single()`, the auth session storage and the network. A query result and each auth event are parameters: a `FetchOutcome`, or an `Option` session.
- Effect timing and the order in which asynchronous responses arrive are not modelled. A slow response for an old route id landing after a newer one is one such case. Also left out: `window.scrollTo`, toasts, `console` output, animation props and CSS classes.
- ProjectDetails.DetailView.FetchProject: each call is one complete `fetchProject` run. The model does not interleave two in-flight queries.
- ProtectedRoute.Gate.SessionLoaded: the model does not ignore a lookup callback that arrives after unmount. React drops that state update.
- The admin page's file input (Admin.tsx, lines 113-121) is visual only. It is wired neither to validation nor to upload, so it is not modelled.
- Admin.Validate: the minimum lengths count the characters of a Dafny string. The schema library counts UTF-16 code units, so a character outside the Basic Multilingual Plane counts twice in the source and once here.
- Admin.AdminForm.Edit: the form library re-validates as the user types after a failed submit. That changes only the messages displayed, and it is not modelled. Submit returns the issues the submit found.
- The portfolio grid's layout spans, image URLs and alt texts are carried in the records. Nothing is stated about them beyond the catalogue contents.
