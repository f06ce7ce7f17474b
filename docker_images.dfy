/**
 * Image listing, removal and pruning in package dockerapi (image.go). The
 * Docker engine calls (`cli.ImageList`, `cli.ImageRemove`, `cli.ImagesPrune`)
 * are not modelled: their results, or the error they fail with, are inputs.
 */
module DockerImages {
  import opened Wrappers
  import GoStrings

  /** An error from the Docker client; only its message is modelled. */
  type EngineError = string

  /** An error returned to the caller. */
  datatype Error =
    | Engine(message: EngineError)  // a Docker client error, passed on as it is
    | DeleteUnsuccessful            // errors.New("delete unsuccessful")

  /** The fields of the engine's image summary that ImageList reads. */
  datatype ImageSummary = ImageSummary(id: string, repoTags: seq<string>, size: int, created: int)

  /** The `Image` record ImageList returns. */
  datatype Image = Image(id: string, name: string, tag: string, size: int, created: int)

  /** The name and the tag shown when an image has no usable tag. */
  const NoneLabel: string := "<none>"

  /**
   * Name and tag of an image: the two halves of its first repository tag
   * when that tag splits on ":" into exactly two parts, "<none>" for both
   * otherwise.
   */
  function NameAndTag(repoTags: seq<string>): (nt: (string, string))
    ensures |repoTags| == 0 ==> nt == (NoneLabel, NoneLabel)
    ensures |repoTags| >= 1 && GoStrings.Count(repoTags[0], ':') == 1 ==>
              repoTags[0] == nt.0 + ":" + nt.1 && ':' !in nt.0 && ':' !in nt.1
    ensures |repoTags| >= 1 && GoStrings.Count(repoTags[0], ':') != 1 ==> nt == (NoneLabel, NoneLabel)
  {
    var name, tag := NoneLabel, NoneLabel;
    if |repoTags| >= 1 then
      var nameAndTag := GoStrings.Split(repoTags[0], ':');
      if |nameAndTag| == 2 then
        GoStrings.SplitInTwo(repoTags[0], ':', nameAndTag[0], nameAndTag[1]);
        (nameAndTag[0], nameAndTag[1])
      else (name, tag)
    else (name, tag)
  }

  /** Only the first repository tag decides the name and the tag. */
  lemma FirstTagOnly(first: string, later: seq<string>, other: seq<string>)
    ensures NameAndTag([first] + later) == NameAndTag([first] + other)
  {
  }

  /** A tag made of a colon-free name and tag parses back into the two. */
  lemma NameAndTagOfJoined(name: string, tag: string, later: seq<string>)
    requires ':' !in name && ':' !in tag
    ensures NameAndTag([name + ":" + tag] + later) == (name, tag)
  {
    GoStrings.SplitInTwo(name + ":" + tag, ':', name, tag);
  }

  /** The `Image` built for one summary in ImageList's loop. */
  function ToImage(item: ImageSummary): (img: Image)
    ensures img.id == item.id && img.size == item.size && img.created == item.created
    ensures (img.name, img.tag) == NameAndTag(item.repoTags)
  {
    var (name, tag) := NameAndTag(item.repoTags);
    Image(item.id, name, tag, item.size, item.created)
  }

  /** The images built for the summaries, before sorting. */
  function ToImages(items: seq<ImageSummary>): seq<Image>
  {
    seq(|items|, i requires 0 <= i < |items| => ToImage(items[i]))
  }

  /** Ordered by name, non-decreasing: no image has a name below an earlier one's. */
  predicate SortedByName(s: seq<Image>)
  {
    forall i, j :: 0 <= i < j < |s| ==> !GoStrings.Less(s[j].name, s[i].name)
  }

  /**
   * `sort.Slice(images, func(i, j) { images[i].Name < images[j].Name })`:
   * sorts the array in place by name. Go's sort is not stable, so nothing is
   * promised about the order of images with equal names.
   */
  method SortByName(a: array<Image>)
    modifies a
    ensures SortedByName(a[..])
    ensures multiset(a[..]) == old(multiset(a[..]))
  {
    var i := 0;
    while i < a.Length
      invariant 0 <= i <= a.Length
      invariant forall p, q :: 0 <= p < q < i ==> !GoStrings.Less(a[q].name, a[p].name)
      invariant multiset(a[..]) == old(multiset(a[..]))
    {
      InsertDown(a, i);
      i := i + 1;
    }
  }

  /** Moves `a[i]` down into the sorted prefix `a[..i]`, by adjacent swaps. */
  method InsertDown(a: array<Image>, i: nat)
    requires i < a.Length
    requires forall p, q :: 0 <= p < q < i ==> !GoStrings.Less(a[q].name, a[p].name)
    modifies a
    ensures forall p, q :: 0 <= p < q <= i ==> !GoStrings.Less(a[q].name, a[p].name)
    ensures forall k :: i < k < a.Length ==> a[k] == old(a[k])
    ensures multiset(a[..]) == old(multiset(a[..]))
  {
    var j := i;
    while j > 0 && GoStrings.Less(a[j].name, a[j - 1].name)
      invariant 0 <= j <= i
      invariant forall p, q :: 0 <= p < q <= i && p != j && q != j ==> !GoStrings.Less(a[q].name, a[p].name)
      invariant forall q :: j < q <= i ==> !GoStrings.Less(a[q].name, a[j].name)
      invariant forall k :: i < k < a.Length ==> a[k] == old(a[k])
      invariant multiset(a[..]) == old(multiset(a[..]))
    {
      GoStrings.LessAsymmetric(a[j].name, a[j - 1].name);
      a[j - 1], a[j] := a[j], a[j - 1];
      j := j - 1;
    }
    forall p, q | 0 <= p < q <= i
      ensures !GoStrings.Less(a[q].name, a[p].name)
    {
      if q == j && p < j - 1 {
        GoStrings.NotGreaterTransitive(a[p].name, a[j - 1].name, a[j].name);
      }
    }
  }

  /**
   * ImageList after the engine call: one `Image` per summary, named and
   * tagged from its first repository tag, sorted by name. An engine error is
   * returned unchanged.
   */
  method ImageList(listed: Result<seq<ImageSummary>, EngineError>) returns (r: Result<seq<Image>, Error>)
    ensures listed.Err? ==> r == Err(Engine(listed.error))
    ensures listed.Ok? ==> r.Ok? && |r.value| == |listed.value|
    ensures listed.Ok? ==> SortedByName(r.value)
    ensures listed.Ok? ==> multiset(r.value) == multiset(ToImages(listed.value))
  {
    if listed.Err? {
      return Err(Engine(listed.error));
    }
    var dimages := listed.value;
    var images := new Image[|dimages|];
    var i := 0;
    while i < |dimages|
      invariant 0 <= i <= |dimages|
      invariant forall k :: 0 <= k < i ==> images[k] == ToImage(dimages[k])
    {
      images[i] := ToImage(dimages[i]);
      i := i + 1;
    }
    assert images[..] == ToImages(dimages);
    SortByName(images);
    return Ok(images[..]);
  }

  /** One entry of the engine's deletion response (types.ImageDeleteResponseItem). */
  datatype DeleteResponseItem = DeleteResponseItem(deleted: string, untagged: string)

  /**
   * ImageRemove after the engine call: an engine error is passed on; an
   * empty deletion response is the error "delete unsuccessful"; otherwise
   * no error (None stands for Go's nil).
   */
  function ImageRemove(removed: Result<seq<DeleteResponseItem>, EngineError>): (err: Option<Error>)
    ensures err == None <==> removed.Ok? && |removed.value| > 0
    ensures err == Some(DeleteUnsuccessful) <==> removed.Ok? && removed.value == []
    ensures removed.Err? ==> err == Some(Engine(removed.error))
  {
    match removed
    case Err(e) => Some(Engine(e))
    case Ok(response) => if |response| == 0 then Some(DeleteUnsuccessful) else None
  }

  /** A key/value filter passed to the engine (filters.KeyValuePair). */
  datatype KeyValuePair = KeyValuePair(key: string, value: string)

  /** The engine's prune report (types.ImagesPruneReport). */
  datatype PruneReport = PruneReport(imagesDeleted: seq<DeleteResponseItem>, spaceReclaimed: nat)

  /** One deleted item of the response (DockerImagesPruneDeletedItem). */
  datatype PrunedItem = PrunedItem(deleted: string, untagged: string)

  /** The prune response (DockerImagesPruneResponse). */
  datatype PruneResponse = PruneResponse(imagesDeleted: seq<PrunedItem>, spaceReclaimed: nat)

  /**
   * The filter ImagesPrune sends: `dangling=true` prunes only untagged
   * images, `dangling=false` (when All is set) prunes every unused image.
   */
  function DanglingFilter(all: bool): (f: KeyValuePair)
    ensures f.key == "dangling"
    ensures f.value == "true" || f.value == "false"
    ensures f.value == "false" <==> all
  {
    var dangling := if all then "false" else "true";
    KeyValuePair("dangling", dangling)
  }

  /**
   * ImagesPrune: asks the engine (a parameter: the report it gives for a
   * filter) to prune with the dangling filter chosen from `all`, then copies
   * the report's deleted items one by one and passes the reclaimed space on.
   */
  method ImagesPrune(all: bool, engine: KeyValuePair -> Result<PruneReport, EngineError>)
    returns (r: Result<PruneResponse, Error>)
    ensures engine(DanglingFilter(all)).Err? ==> r == Err(Engine(engine(DanglingFilter(all)).error))
    ensures engine(DanglingFilter(all)).Ok? ==>
              var report := engine(DanglingFilter(all)).value;
              r.Ok? && r.value.spaceReclaimed == report.spaceReclaimed &&
              |r.value.imagesDeleted| == |report.imagesDeleted| &&
              forall k :: 0 <= k < |report.imagesDeleted| ==>
                r.value.imagesDeleted[k].deleted == report.imagesDeleted[k].deleted &&
                r.value.imagesDeleted[k].untagged == report.imagesDeleted[k].untagged
  {
    var danglingFilter := DanglingFilter(all);
    var pruned := engine(danglingFilter);
    if pruned.Err? {
      return Err(Engine(pruned.error));
    }
    var report := pruned.value;
    var imagesDeleted := new PrunedItem[|report.imagesDeleted|];
    var i := 0;
    while i < |report.imagesDeleted|
      invariant 0 <= i <= |report.imagesDeleted|
      invariant forall k :: 0 <= k < i ==>
                  imagesDeleted[k] == PrunedItem(report.imagesDeleted[k].deleted, report.imagesDeleted[k].untagged)
    {
      var item := report.imagesDeleted[i];
      imagesDeleted[i] := PrunedItem(item.deleted, item.untagged);
      i := i + 1;
    }
    return Ok(PruneResponse(imagesDeleted[..], report.spaceReclaimed));
  }
}
