/** The project detail page: resolve one stored project by the route's id,
    then lay out its cover image and four gallery-derived image slots. */
module ProjectDetails {
  import opened Wrappers

  /** A stored project row; `galleryUrls` may be missing (`undefined` or `null`). */
  datatype Project = Project(
    id: int,
    title: string,
    category: string,
    description: string,
    imageUrl: string,
    galleryUrls: Option<seq<string>>)

  /** What the single-row query delivers: the row, or an error (a network or
      service failure, or no matching row). */
  datatype FetchOutcome = Fetched(record: Project) | FetchFailed

  /** `project.gallery_urls || []`: a missing array reads as the empty one;
      a present array, even an empty one, is kept as it is. */
  function Gallery(p: Project): seq<string> {
    p.galleryUrls.GetOr([])
  }

  /** `gallery[k]`: the entry at `k`, or `undefined` past the end. */
  function Entry(gallery: seq<string>, k: nat): Option<string> {
    if k < |gallery| then Some(gallery[k]) else None
  }

  /** `x || fallback` on a string that may be `undefined`: both `undefined`
      and the empty string are falsy. */
  function OrElse(x: Option<string>, fallback: string): string {
    match x
    case Some(s) => if s != "" then s else fallback
    case None => fallback
  }

  /** The gallery holds a usable image at `k`: the index exists and the
      string there is not empty. */
  predicate Present(gallery: seq<string>, k: nat) {
    k < |gallery| && gallery[k] != ""
  }

  /** The four derived image slots. */
  datatype Images = Images(sidePlan: string, detail1: string, detail2: string, interior: string)

  /** Slot `k` of `imgs`, in the order `sidePlanImage`, `detailImage1`,
      `detailImage2`, `interiorImage`. */
  function Slot(imgs: Images, k: nat): string
    requires k < 4
  {
    if k == 0 then imgs.sidePlan
    else if k == 1 then imgs.detail1
    else if k == 2 then imgs.detail2
    else imgs.interior
  }

  /** The slot derivation: slot `k` shows gallery entry `k` when it is
      present and the cover image otherwise. */
  function DeriveImages(p: Project): (r: Images)
    ensures forall k: nat :: k < 4 ==>
      Slot(r, k) == if Present(Gallery(p), k) then Gallery(p)[k] else p.imageUrl
    ensures p.galleryUrls.None? ==>
      r == Images(p.imageUrl, p.imageUrl, p.imageUrl, p.imageUrl)
  {
    var gallery := Gallery(p);
    Images(
      OrElse(Entry(gallery, 0), p.imageUrl),
      OrElse(Entry(gallery, 1), p.imageUrl),
      OrElse(Entry(gallery, 2), p.imageUrl),
      OrElse(Entry(gallery, 3), p.imageUrl))
  }

  /** An empty gallery puts the cover image in all four slots. */
  lemma EmptyGalleryUsesCover(p: Project)
    requires Gallery(p) == []
    ensures DeriveImages(p) == Images(p.imageUrl, p.imageUrl, p.imageUrl, p.imageUrl)
  {
    assert forall k: nat :: k < 4 ==> !Present(Gallery(p), k);
  }

  /** A gallery of two non-empty entries fills the first two slots from it
      and the last two from the cover. */
  lemma TwoEntryGallery(p: Project, a: string, b: string)
    requires Gallery(p) == [a, b] && a != "" && b != ""
    ensures DeriveImages(p) == Images(a, b, p.imageUrl, p.imageUrl)
  {
    var r := DeriveImages(p);
    assert Slot(r, 0) == a && Slot(r, 1) == b && Slot(r, 2) == p.imageUrl && Slot(r, 3) == p.imageUrl;
  }

  /** Entries past index 3 never reach a slot. */
  lemma ExtraEntriesIgnored(p: Project, extra: seq<string>)
    requires |Gallery(p)| >= 4
    ensures DeriveImages(p.(galleryUrls := Some(Gallery(p) + extra))) == DeriveImages(p)
  {
    var q := p.(galleryUrls := Some(Gallery(p) + extra));
    assert forall k: nat :: k < 4 ==> Gallery(q)[k] == Gallery(p)[k];
    assert forall k: nat :: k < 4 ==> Slot(DeriveImages(q), k) == Slot(DeriveImages(p), k);
  }

  /** Slots are independent: replacing gallery entry `j` can change slot `j`
      and no other. */
  lemma SlotsIndependent(p: Project, j: nat, u: string, k: nat)
    requires j < |Gallery(p)| && k < 4 && k != j
    ensures Slot(DeriveImages(p.(galleryUrls := Some(Gallery(p)[j := u]))), k) == Slot(DeriveImages(p), k)
  {
  }

  /** The branch the page renders. */
  datatype View =
    | Skeleton
    | NotFound(backLink: string)
    | Detail(project: Project, images: Images)

  /** The render decision: loading shows the skeleton; otherwise a missing
      project shows "Project Not Found" with a link to the portfolio;
      otherwise the detail view with its derived images. */
  function RenderView(isLoading: bool, project: Option<Project>): (v: View)
    ensures v.Skeleton? <==> isLoading
    ensures v.NotFound? <==> !isLoading && project.None?
    ensures v.Detail? <==> !isLoading && project.Some?
    ensures v.NotFound? ==> v.backLink == "/portfolio"
    ensures v.Detail? ==> v.project == project.value && v.images == DeriveImages(project.value)
  {
    if isLoading then Skeleton
    else match project
      case None => NotFound("/portfolio")
      case Some(p) => Detail(p, DeriveImages(p))
  }

  /** The two state cells `project` and `isLoading`. */
  datatype DetailState = DetailState(project: Option<Project>, isLoading: bool)

  /** `useState<Project | null>(null)` and `useState(true)`. */
  const Initial := DetailState(None, true)

  /** The `!id` guard: no route parameter, or an empty one. */
  predicate MissingId(id: Option<string>) {
    id.None? || id.value == ""
  }

  /** `fetchProject`: without an id it returns before the `try`, touching
      nothing; otherwise a delivered row is stored, an error leaves `project`
      as it was, and the `finally` clears `isLoading`. */
  function AfterFetch(s: DetailState, id: Option<string>, outcome: FetchOutcome): (t: DetailState)
    ensures MissingId(id) ==> t == s
    ensures !MissingId(id) ==> !t.isLoading
    ensures !MissingId(id) && outcome.Fetched? ==> t.project == Some(outcome.record)
    ensures outcome.FetchFailed? ==> t.project == s.project
  {
    if MissingId(id) then s
    else
      var project := if outcome.Fetched? then Some(outcome.record) else s.project;
      DetailState(project, false)
  }

  /** Without an id nothing is fetched and `isLoading` is never cleared, so
      the page stays on the skeleton whatever a query would have delivered. */
  lemma MissingIdStaysLoading(id: Option<string>, outcome: FetchOutcome)
    requires MissingId(id)
    ensures AfterFetch(Initial, id, outcome) == Initial
    ensures var t := AfterFetch(Initial, id, outcome); RenderView(t.isLoading, t.project) == Skeleton
  {
  }

  /** A delivered row ends loading and renders the detail view. */
  lemma FetchSuccessShowsDetail(id: string, p: Project)
    requires id != ""
    ensures AfterFetch(Initial, Some(id), Fetched(p)) == DetailState(Some(p), false)
    ensures RenderView(false, Some(p)) == Detail(p, DeriveImages(p))
  {
  }

  /** A failed first fetch ends loading on "Project Not Found". */
  lemma FetchFailureShowsNotFound(id: string)
    requires id != ""
    ensures AfterFetch(Initial, Some(id), FetchFailed) == DetailState(None, false)
    ensures RenderView(false, None) == NotFound("/portfolio")
  {
  }

  /** When the route id changes on a mounted page, a failed fetch for the new
      id keeps the previously shown project on screen. */
  lemma FailedRefetchKeepsPreviousProject(id1: string, id2: string, p: Project)
    requires id1 != "" && id2 != ""
    ensures var s := AfterFetch(AfterFetch(Initial, Some(id1), Fetched(p)), Some(id2), FetchFailed);
      RenderView(s.isLoading, s.project) == Detail(p, DeriveImages(p))
  {
  }

  /** The page component's state. */
  class DetailView {
    var project: Option<Project>
    var isLoading: bool

    /** The two state cells as one value. */
    function State(): DetailState
      reads this
    {
      DetailState(project, isLoading)
    }

    /** Both state cells at their initial values. */
    constructor ()
      ensures State() == Initial
    {
      project := None;
      isLoading := true;
    }

    /** The effect's `fetchProject`, with the query's result as `outcome`. */
    method FetchProject(id: Option<string>, outcome: FetchOutcome)
      modifies this
      ensures State() == AfterFetch(old(State()), id, outcome)
    {
      if MissingId(id) {
        return;
      }
      if outcome.Fetched? {
        project := Some(outcome.record);
      }
      isLoading := false;
    }

    /** The branch shown for the current state. */
    function Render(): (v: View)
      reads this
      ensures v.Skeleton? <==> isLoading
      ensures v.NotFound? <==> !isLoading && project.None?
      ensures v.Detail? <==> !isLoading && project.Some?
    {
      RenderView(isLoading, project)
    }
  }
}
