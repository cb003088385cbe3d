/** Finding the manifest of an image in a registry (tee_launcher/launcher.py): bounded retries for one
    request, and a queue of tags that grows while image indexes are scanned. What the registry answers
    to the i-th attempt for a tag is a parameter. Exceptions other than the one raised when attempts run
    out are not caught in the search and end it. */
module Manifests {
  import opened Common

  type Tag = string

  datatype Platform = Platform(architecture: Option<string>, os: Option<string>)
  datatype Entry = Entry(platform: Option<Platform>, digest: Option<Tag>)

  /** A manifest by media type; `Malformed` is an answer that is not JSON or has no media type. */
  datatype Manifest = Index(entries: seq<Entry>) | Image(config: Option<string>) | Other | Malformed
  datatype Page = Page(manifest: Manifest, contentDigest: Option<string>)

  datatype Answer = Timeout | Status(code: int, page: Page) | Raised
  datatype Fetched = Fetched(page: Page) | GaveUp | Failed

  datatype Registry = Registry(answers: (Tag, nat) -> Answer, maxAttempts: int, interval: real, wanted: string)

  // ---------- one request ----------

  predicate Retried(a: Answer) { a.Timeout? || (a.Status? && a.code != 200) }

  function Concluded(a: Answer): Fetched
    requires !Retried(a)
  {
    if a.Raised? then Failed else Fetched(a.page)
  }

  /** What the attempts from `i` on come to. */
  function Attempts(r: Registry, tag: Tag, i: nat): Fetched
    decreases r.maxAttempts - i
  {
    if i >= r.maxAttempts then GaveUp
    else if Retried(r.answers(tag, i)) then Attempts(r, tag, i + 1)
    else Concluded(r.answers(tag, i))
  }

  function Max(a: real, b: real): real { if a < b then b else a }
  function Min(a: real, b: real): real { if b < a then b else a }

  /** How long to sleep after having slept that long. */
  function NextInterval(interval: real): real { Min(Max(interval, 1.0) * 1.5, 60.0) }

  /** `base` grown by half `k` times. */
  function Grown(base: real, k: nat): real { if k == 0 then base else Grown(base, k - 1) * 1.5 }

  /** The sleep before attempt `k`: the given one first, then growing by half each time up to a minute. */
  function Backoff(interval: real, k: nat): real {
    if k == 0 then interval else Min(Grown(Max(interval, 1.0), k), 60.0)
  }

  lemma {:induction false} GrownAtLeastOne(base: real, k: nat)
    requires base >= 1.0
    ensures Grown(base, k) >= 1.0
  {
    if k > 0 {
      GrownAtLeastOne(base, k - 1);
    }
  }

  lemma BackoffNext(interval: real, k: nat)
    ensures Backoff(interval, k + 1) == NextInterval(Backoff(interval, k))
  {
    GrownAtLeastOne(Max(interval, 1.0), k);
  }

  /** Retries until an answer with status 200, at most `maxAttempts` times: the notes in the source say
      that it retries forever. */
  method RequestUntilSuccess(r: Registry, tag: Tag) returns (f: Fetched, sleeps: seq<real>)
    ensures f == Attempts(r, tag, 0)
    ensures |sleeps| <= r.maxAttempts || sleeps == []
    ensures forall k :: 0 <= k < |sleeps| ==> sleeps[k] == Backoff(r.interval, k)
    ensures f.GaveUp? ==> forall k :: 0 <= k < r.maxAttempts ==> Retried(r.answers(tag, k))
    ensures !f.GaveUp? ==>
            |sleeps| > 0 && !Retried(r.answers(tag, |sleeps| - 1)) && f == Concluded(r.answers(tag, |sleeps| - 1))
    ensures forall k :: 0 <= k < |sleeps| - 1 ==> Retried(r.answers(tag, k))
  {
    sleeps := [];
    var interval := r.interval;
    var attempt := 0;
    while attempt < r.maxAttempts
      invariant 0 <= attempt && (attempt <= r.maxAttempts || attempt == 0) && |sleeps| == attempt
      invariant interval == Backoff(r.interval, attempt)
      invariant forall k :: 0 <= k < |sleeps| ==> sleeps[k] == Backoff(r.interval, k)
      invariant forall k :: 0 <= k < attempt ==> Retried(r.answers(tag, k))
      invariant Attempts(r, tag, 0) == Attempts(r, tag, attempt)
    {
      sleeps := sleeps + [interval];
      BackoffNext(r.interval, attempt);
      interval := NextInterval(interval);
      var answer := r.answers(tag, attempt);
      if !Retried(answer) {
        return Concluded(answer), sleeps;
      }
      attempt := attempt + 1;
    }
    f := GaveUp;
  }

  // ---------- one manifest ----------

  predicate Wanted(p: Platform) { p.architecture == Some("amd64") && p.os == Some("linux") }

  /** An entry without a platform, or one for our platform without a digest, raises. */
  predicate Readable(e: Entry) { e.platform.Some? && (Wanted(e.platform.value) ==> e.digest.Some?) }

  predicate Picked(e: Entry) { e.platform.Some? && Wanted(e.platform.value) && e.digest.Some? }

  /** The digests for our platform, in order. */
  function PickedDigests(es: seq<Entry>): seq<Tag> {
    if es == [] then []
    else
      var last := es[|es| - 1];
      PickedDigests(es[..|es| - 1]) + if Picked(last) then [last.digest.value] else []
  }

  /** What to do about a tag: stop with a digest, stop with an exception, or queue more tags. */
  datatype Step = Hit(digest: string) | Crash | Expand(children: seq<Tag>)

  function Scan(es: seq<Entry>): Step {
    if forall i :: 0 <= i < |es| ==> Readable(es[i]) then Expand(PickedDigests(es)) else Crash
  }

  function Inspect(f: Fetched, wanted: string): Step {
    match f
    case GaveUp => Expand([])
    case Failed => Crash
    case Fetched(page) =>
      match page.manifest
      case Index(es) => Scan(es)
      case Image(config) =>
        if config.None? then Crash
        else if config.value != wanted then Expand([])
        else if page.contentDigest.None? then Crash
        else Hit(page.contentDigest.value)
      case Other => Expand([])
      case Malformed => Crash
  }

  function Look(r: Registry, tag: Tag): Step { Inspect(Attempts(r, tag, 0), r.wanted) }

  method ScanIndex(es: seq<Entry>, queue: seq<Tag>) returns (ok: bool, queue': seq<Tag>)
    ensures ok <==> Scan(es).Expand?
    ensures ok ==> queue' == queue + Scan(es).children
  {
    queue' := queue;
    for i := 0 to |es|
      invariant forall j :: 0 <= j < i ==> Readable(es[j])
      invariant queue' == queue + PickedDigests(es[..i])
    {
      var e := es[i];
      assert es[..i + 1][..i] == es[..i];
      if e.platform.None? {
        assert !Readable(e);
        return false, queue';
      }
      if Wanted(e.platform.value) {
        if e.digest.None? {
          assert !Readable(e);
          return false, queue';
        }
        queue' := queue' + [e.digest.value];
      }
    }
    assert es[..|es|] == es;
    ok := true;
  }

  // ---------- the search ----------

  datatype Outcome = NoTags | Found(digest: string) | Raises | NotFound

  function Stops(s: Step): Option<Outcome> {
    match s
    case Hit(d) => Some(Found(d))
    case Crash => Some(Raises)
    case Expand(_) => None
  }

  function ChildrenOf(r: Registry, tag: Tag): seq<Tag> {
    var s := Look(r, tag);
    if s.Expand? then s.children else []
  }

  /** The tags queued by all of these, in order. */
  function Children(r: Registry, tags: seq<Tag>): seq<Tag> {
    if tags == [] then [] else Children(r, tags[..|tags| - 1]) + ChildrenOf(r, tags[|tags| - 1])
  }

  /** The first of these tags that ends the search. */
  function First(r: Registry, tags: seq<Tag>): Option<Outcome> {
    if tags == [] then None
    else
      var before := First(r, tags[..|tags| - 1]);
      if before.Some? then before else Stops(Look(r, tags[|tags| - 1]))
  }

  /** The search comes to an end within that many levels below these tags. */
  ghost predicate Ends(r: Registry, tags: seq<Tag>, depth: nat)
    decreases depth
  {
    First(r, tags).Some? || tags == [] || (depth > 0 && Ends(r, Children(r, tags), depth - 1))
  }

  /** The search one whole level after the other. */
  ghost function Search(r: Registry, tags: seq<Tag>, depth: nat): Outcome
    decreases depth
  {
    if First(r, tags).Some? then First(r, tags).value
    else if tags == [] || depth == 0 then NotFound
    else Search(r, Children(r, tags), depth - 1)
  }

  lemma {:induction false} FirstStays(r: Registry, tags: seq<Tag>, i: nat)
    requires i <= |tags| && First(r, tags[..i]).Some?
    ensures First(r, tags) == First(r, tags[..i])
    decreases |tags|
  {
    if i == |tags| {
      assert tags[..i] == tags;
    } else {
      assert tags[..|tags| - 1][..i] == tags[..i];
      FirstStays(r, tags[..|tags| - 1], i);
    }
  }

  lemma PrefixStep(r: Registry, level: seq<Tag>, i: nat)
    requires i < |level|
    ensures Children(r, level[..i + 1]) == Children(r, level[..i]) + ChildrenOf(r, level[i])
    ensures First(r, level[..i]).None? ==> First(r, level[..i + 1]) == Stops(Look(r, level[i]))
    ensures First(r, level[..i]).None? && Stops(Look(r, level[i])).Some? ==> First(r, level) == Stops(Look(r, level[i]))
  {
    assert level[..i + 1][..i] == level[..i];
    if First(r, level[..i]).None? && Stops(Look(r, level[i])).Some? {
      FirstStays(r, level, i + 1);
    }
  }

  /** The queue in the middle of a level: what is left of it, then what it has queued so far. */
  ghost predicate Midway(r: Registry, queue: seq<Tag>, level: seq<Tag>, i: nat) {
    i <= |level| && queue == level[i..] + Children(r, level[..i]) && First(r, level[..i]).None?
  }

  lemma MidwayPop(r: Registry, queue: seq<Tag>, level: seq<Tag>, i: nat)
    requires Midway(r, queue, level, i) && i < |level|
    ensures queue != [] && queue[0] == level[i]
    ensures Stops(Look(r, queue[0])).Some? ==> First(r, level) == Stops(Look(r, queue[0]))
    ensures Stops(Look(r, queue[0])).None? ==> Midway(r, queue[1..] + ChildrenOf(r, queue[0]), level, i + 1)
  {
    PrefixStep(r, level, i);
    Shift(queue, level, i, Children(r, level[..i]), ChildrenOf(r, level[i]));
  }

  lemma Shift(queue: seq<Tag>, level: seq<Tag>, i: nat, queued: seq<Tag>, more: seq<Tag>)
    requires i < |level| && queue == level[i..] + queued
    ensures queue[0] == level[i] && queue[1..] + more == level[i + 1..] + (queued + more)
  {
  }

  lemma MidwayNext(r: Registry, queue: seq<Tag>, level: seq<Tag>)
    requires Midway(r, queue, level, |level|)
    ensures queue == Children(r, level) && First(r, level).None?
    ensures Midway(r, queue, Children(r, level), 0)
  {
    assert level[..|level|] == level;
  }

  /** One turn: fetches the manifest of a tag and stops, or queues more tags. */
  method Visit(r: Registry, tag: Tag, queue: seq<Tag>) returns (stop: Option<Outcome>, queue': seq<Tag>)
    ensures stop == Stops(Look(r, tag))
    ensures stop.None? ==> queue' == queue + ChildrenOf(r, tag)
  {
    queue' := queue;
    var fetched, _ := RequestUntilSuccess(r, tag);
    match fetched {
      case GaveUp => return None, queue;
      case Failed => return Some(Raises), queue;
      case Fetched(page) =>
        match page.manifest {
          case Index(es) =>
            var ok;
            ok, queue' := ScanIndex(es, queue);
            return if ok then None else Some(Raises), queue';
          case Image(config) =>
            if config.None? {
              return Some(Raises), queue;
            }
            if config.value == r.wanted {
              return Some(if page.contentDigest.None? then Raises else Found(page.contentDigest.value)), queue;
            }
            return None, queue;
          case Other => return None, queue;
          case Malformed => return Some(Raises), queue;
        }
    }
  }

  /** The queue finds what the search level by level finds. It ends whenever the level search does, which
      is the only thing asked of the registry. */
  method GetManifestDigest(r: Registry, tags: seq<Tag>, ghost depth: nat) returns (o: Outcome)
    requires Ends(r, tags, depth)
    ensures o == if tags == [] then NoTags else Search(r, tags, depth)
  {
    if tags == [] {
      return NoTags;
    }
    var queue := tags;
    ghost var level, i, d, target := tags, 0, depth, Search(r, tags, depth);
    while queue != []
      invariant OnTrack(r, queue, level, i, d, target)
      decreases d, |level| - i
    {
      var stop;
      stop, queue, level, i, d := Turn(r, queue, level, i, d, target);
      if stop.Some? {
        return stop.value;
      }
    }
    SearchExhausted(r, level, i, d);
    o := NotFound;
  }

  /** One iteration, and how far it gets through the levels. */
  method Turn(r: Registry, queue: seq<Tag>, ghost level: seq<Tag>, ghost i: nat, ghost d: nat, ghost o: Outcome)
    returns (stop: Option<Outcome>, queue': seq<Tag>, ghost level': seq<Tag>, ghost i': nat, ghost d': nat)
    requires queue != [] && OnTrack(r, queue, level, i, d, o)
    ensures stop == Stops(Look(r, queue[0]))
    ensures stop.Some? ==> stop.value == o
    ensures stop.None? ==> queue' == queue[1..] + ChildrenOf(r, queue[0]) && OnTrack(r, queue', level', i', d', o)
    ensures Closer(level, i, d, level', i', d')
  {
    var tag, rest := queue[0], queue[1..];
    level', i', d' := Advance(r, queue, level, i, d, o);
    stop, queue' := Visit(r, tag, rest);
  }

  ghost predicate Closer(level: seq<Tag>, i: nat, d: nat, level': seq<Tag>, i': nat, d': nat) {
    d' < d || (d' == d && |level'| - i' < |level| - i)
  }

  lemma Advance(r: Registry, queue: seq<Tag>, level: seq<Tag>, i: nat, d: nat, o: Outcome)
    returns (level': seq<Tag>, i': nat, d': nat)
    requires queue != [] && OnTrack(r, queue, level, i, d, o)
    ensures Closer(level, i, d, level', i', d') && Popped(r, queue, level', i', d', o)
  {
    if i == |level| {
      FirstOfNextLevel(r, queue, level, d, o);
      level', i', d' := queue, 1, d - 1;
    } else {
      NextTag(r, queue, level, i, d, o);
      level', i', d' := level, i + 1, d;
    }
  }

  lemma FirstOfNextLevel(r: Registry, queue: seq<Tag>, level: seq<Tag>, d: nat, o: Outcome)
    requires queue != [] && OnTrack(r, queue, level, |level|, d, o)
    ensures d > 0 && Popped(r, queue, queue, 1, d - 1, o)
  {
    NextLevel(r, queue, level, d, o);
    NextTag(r, queue, queue, 0, d - 1, o);
  }

  /** The queue is `i` tags into a level, and the search from that level comes to `o`. */
  ghost predicate OnTrack(r: Registry, queue: seq<Tag>, level: seq<Tag>, i: nat, d: nat, o: Outcome) {
    Midway(r, queue, level, i) && EndsWith(r, level, d, o)
  }

  ghost predicate EndsWith(r: Registry, level: seq<Tag>, d: nat, o: Outcome) {
    Ends(r, level, d) && Search(r, level, d) == o
  }

  /** The first tag ends the search with `o`, or the queue is on track after it. */
  ghost predicate Popped(r: Registry, queue: seq<Tag>, level: seq<Tag>, i: nat, d: nat, o: Outcome)
    requires queue != []
  {
    var stop := Stops(Look(r, queue[0]));
    if stop.Some? then stop.value == o else OnTrack(r, queue[1..] + ChildrenOf(r, queue[0]), level, i, d, o)
  }

  lemma NextTag(r: Registry, queue: seq<Tag>, level: seq<Tag>, i: nat, d: nat, o: Outcome)
    requires OnTrack(r, queue, level, i, d, o) && i < |level|
    ensures queue != [] && Popped(r, queue, level, i + 1, d, o)
  {
    MidwayPop(r, queue, level, i);
  }

  lemma NextLevel(r: Registry, queue: seq<Tag>, level: seq<Tag>, d: nat, o: Outcome)
    requires OnTrack(r, queue, level, |level|, d, o) && queue != []
    ensures d > 0 && OnTrack(r, queue, queue, 0, d - 1, o)
  {
    MidwayNext(r, queue, level);
  }

  lemma SearchExhausted(r: Registry, level: seq<Tag>, i: nat, d: nat)
    requires Midway(r, [], level, i)
    ensures Search(r, level, d) == NotFound
  {
    assert i == |level| by {
      assert |level[i..] + Children(r, level[..i])| == 0;
    }
    MidwayNext(r, [], level);
  }

  // ---------- when it ends ----------

  /** What the loop has come to within `n` iterations. */
  ghost function QueueRun(r: Registry, queue: seq<Tag>, n: nat): Option<Outcome>
    decreases n
  {
    if queue == [] then Some(NotFound)
    else if n == 0 then None
    else
      var stop := Stops(Look(r, queue[0]));
      if stop.Some? then stop else QueueRun(r, queue[1..] + ChildrenOf(r, queue[0]), n - 1)
  }

  /** If the loop stops, the search ends at some level: so the precondition of the method shuts out
      nothing but loops that never stop. */
  lemma {:induction false} StoppedMeansEnds(r: Registry, queue: seq<Tag>, level: seq<Tag>, i: nat, n: nat)
    returns (d: nat)
    requires Midway(r, queue, level, i) && QueueRun(r, queue, n).Some?
    ensures EndsWith(r, level, d, QueueRun(r, queue, n).value)
    decreases n, 1
  {
    if queue == [] {
      SearchExhausted(r, level, i, 1);
      EmptyEnds(r, level, i);
      d := 1;
    } else if i == |level| {
      MidwayNext(r, queue, level);
      d := StoppedFromPop(r, queue, queue, 0, n);
      EndsBelow(r, level, d, QueueRun(r, queue, n).value);
      d := d + 1;
    } else {
      d := StoppedFromPop(r, queue, level, i, n);
    }
  }

  lemma EndsBelow(r: Registry, level: seq<Tag>, d: nat, o: Outcome)
    requires level != [] && First(r, level).None? && EndsWith(r, Children(r, level), d, o)
    ensures EndsWith(r, level, d + 1, o)
  {
  }

  lemma {:induction false} StoppedFromPop(r: Registry, queue: seq<Tag>, level: seq<Tag>, i: nat, n: nat)
    returns (d: nat)
    requires Midway(r, queue, level, i) && i < |level| && QueueRun(r, queue, n).Some?
    ensures EndsWith(r, level, d, QueueRun(r, queue, n).value)
    decreases n, 0
  {
    d := 0;
    MidwayPop(r, queue, level, i);
    if Stops(Look(r, queue[0])).None? {
      d := StoppedMeansEnds(r, queue[1..] + ChildrenOf(r, queue[0]), level, i + 1, n - 1);
    }
  }

  lemma EmptyEnds(r: Registry, level: seq<Tag>, i: nat)
    requires Midway(r, [], level, i)
    ensures Ends(r, level, 1)
  {
    assert i == |level| by {
      assert |level[i..] + Children(r, level[..i])| == 0;
    }
    MidwayNext(r, [], level);
    assert Ends(r, Children(r, level), 0);
  }

  ghost predicate StopsWithin(r: Registry, queue: seq<Tag>, n: nat) { QueueRun(r, queue, n).Some? }

  ghost predicate EndsWithin(r: Registry, tags: seq<Tag>, d: nat) { Ends(r, tags, d) }

  /** The loop stops for these tags exactly when the level search ends. */
  lemma StopsIffEnds(r: Registry, tags: seq<Tag>)
    ensures (exists n :: StopsWithin(r, tags, n)) <==> exists d :: EndsWithin(r, tags, d)
  {
    assert tags[..0] == [] && tags == tags[0..] + Children(r, tags[..0]);
    if n :| StopsWithin(r, tags, n) {
      var d := StoppedMeansEnds(r, tags, tags, 0, n);
      assert EndsWithin(r, tags, d);
    }
    if d :| EndsWithin(r, tags, d) {
      var n := EndsMeansStopped(r, tags, tags, 0, d);
      assert StopsWithin(r, tags, n);
    }
  }

  lemma {:induction false} EndsMeansStopped(r: Registry, queue: seq<Tag>, level: seq<Tag>, i: nat, d: nat)
    returns (n: nat)
    requires Midway(r, queue, level, i) && Ends(r, level, d)
    ensures QueueRun(r, queue, n).Some?
    decreases d, |level| - i
  {
    n := 0;
    if queue == [] {
    } else if i == |level| {
      MidwayNext(r, queue, level);
      n := EndsMeansStopped(r, queue, queue, 0, d - 1);
    } else {
      MidwayPop(r, queue, level, i);
      if Stops(Look(r, queue[0])).None? {
        n := EndsMeansStopped(r, queue[1..] + ChildrenOf(r, queue[0]), level, i + 1, d);
      }
      n := n + 1;
    }
  }

  /** A registry whose indexes do not refer back to themselves always lets the search end. */
  lemma {:induction false} AcyclicEnds(r: Registry, tags: seq<Tag>, rank: Tag -> nat, bound: nat)
    requires forall t, c :: c in ChildrenOf(r, t) ==> rank(c) < rank(t)
    requires forall t :: t in tags ==> rank(t) < bound
    ensures Ends(r, tags, bound)
    decreases bound
  {
    if tags != [] {
      BoundPositive(tags, rank, bound);
      forall c | c in Children(r, tags)
        ensures rank(c) < bound - 1
      {
        var t := ParentOf(r, tags, c);
      }
      AcyclicEnds(r, Children(r, tags), rank, bound - 1);
    }
  }

  lemma BoundPositive(tags: seq<Tag>, rank: Tag -> nat, bound: nat)
    requires tags != [] && forall t :: t in tags ==> rank(t) < bound
    ensures bound > 0
  {
    assert rank(tags[0]) < bound;
  }

  lemma {:induction false} ParentOf(r: Registry, tags: seq<Tag>, c: Tag) returns (t: Tag)
    requires c in Children(r, tags)
    ensures t in tags && c in ChildrenOf(r, t)
  {
    t := tags[|tags| - 1];
    if c !in ChildrenOf(r, t) {
      t := ParentOf(r, tags[..|tags| - 1], c);
    }
  }

  // ---------- what it finds ----------

  /** A way through the indexes from one of the tags. */
  ghost predicate Path(r: Registry, tags: seq<Tag>, p: seq<Tag>) {
    |p| > 0 && p[0] in tags && forall i :: 0 <= i < |p| - 1 ==> p[i + 1] in ChildrenOf(r, p[i])
  }

  /** The path leads to a tag that ends the search with `o`. */
  ghost predicate LeadsTo(r: Registry, tags: seq<Tag>, p: seq<Tag>, o: Outcome) {
    Path(r, tags, p) && Stops(Look(r, p[|p| - 1])) == Some(o)
  }

  /** A digest that is found, or an exception, is what some path leads to, and no shorter path ends the
      search. */
  lemma {:induction false} FoundIsNearest(r: Registry, tags: seq<Tag>, depth: nat) returns (p: seq<Tag>)
    requires Search(r, tags, depth) != NotFound
    ensures LeadsTo(r, tags, p, Search(r, tags, depth))
    ensures forall q, o :: LeadsTo(r, tags, q, o) ==> |p| <= |q|
    decreases depth
  {
    if First(r, tags).Some? {
      var t := FirstAt(r, tags);
      p := [t];
    } else {
      var p' := FoundIsNearest(r, Children(r, tags), depth - 1);
      var t := ParentOf(r, tags, p'[0]);
      p := [t] + p';
      forall q, o | LeadsTo(r, tags, q, o) ensures |p| <= |q| {
        NoneFirst(r, tags, q[0]);
        TailPath(r, tags, q);
        assert LeadsTo(r, Children(r, tags), q[1..], o);
      }
    }
  }

  lemma {:induction false} FirstAt(r: Registry, tags: seq<Tag>) returns (t: Tag)
    requires First(r, tags).Some?
    ensures t in tags && Stops(Look(r, t)) == First(r, tags)
  {
    var before := tags[..|tags| - 1];
    if First(r, before).Some? {
      t := FirstAt(r, before);
    } else {
      t := tags[|tags| - 1];
    }
  }

  lemma {:induction false} NoneFirst(r: Registry, tags: seq<Tag>, t: Tag)
    requires First(r, tags).None? && t in tags
    ensures Stops(Look(r, t)).None?
  {
    if t != tags[|tags| - 1] {
      NoneFirst(r, tags[..|tags| - 1], t);
    }
  }

  lemma {:induction false} ChildIn(r: Registry, tags: seq<Tag>, t: Tag, c: Tag)
    requires t in tags && c in ChildrenOf(r, t)
    ensures c in Children(r, tags)
  {
    if t != tags[|tags| - 1] {
      ChildIn(r, tags[..|tags| - 1], t, c);
    }
  }

  lemma TailPath(r: Registry, tags: seq<Tag>, q: seq<Tag>)
    requires Path(r, tags, q) && First(r, tags).None?
    ensures |q| > 1 ==> Path(r, Children(r, tags), q[1..])
    ensures |q| == 1 ==> Stops(Look(r, q[0])).None?
  {
  }

  /** Nothing is found exactly when no path leads to the wanted image or to an exception. */
  lemma NotFoundIff(r: Registry, tags: seq<Tag>, depth: nat)
    requires Ends(r, tags, depth)
    ensures Search(r, tags, depth) == NotFound <==> !exists p, o :: LeadsTo(r, tags, p, o)
  {
    if Search(r, tags, depth) == NotFound {
      forall p, o ensures !LeadsTo(r, tags, p, o) {
        if Path(r, tags, p) {
          NothingOnPath(r, tags, depth, p);
        }
      }
    } else {
      var p := FoundIsNearest(r, tags, depth);
    }
  }

  lemma {:induction false} NothingOnPath(r: Registry, tags: seq<Tag>, depth: nat, p: seq<Tag>)
    requires Ends(r, tags, depth) && Search(r, tags, depth) == NotFound && Path(r, tags, p)
    ensures Stops(Look(r, p[|p| - 1])).None?
    decreases depth
  {
    FirstOutcome(r, tags);
    TailPath(r, tags, p);
    if |p| > 1 {
      NothingOnPath(r, Children(r, tags), depth - 1, p[1..]);
    }
  }

  lemma FirstOutcome(r: Registry, tags: seq<Tag>)
    ensures First(r, tags) != Some(NotFound)
  {
  }

  // ---------- the end of the search, read off the graph ----------

  ghost predicate PathsUpTo(r: Registry, tags: seq<Tag>, n: nat) {
    forall p :: Path(r, tags, p) ==> |p| <= n
  }

  /** The search ends exactly when some path leads to the wanted image or to an exception, or else paths do
      not get arbitrarily long. */
  lemma EndsIffOnGraph(r: Registry, tags: seq<Tag>)
    ensures (exists d :: EndsWithin(r, tags, d)) <==>
            (exists p, o :: LeadsTo(r, tags, p, o)) || (exists n :: PathsUpTo(r, tags, n))
  {
    if d :| EndsWithin(r, tags, d) {
      if Search(r, tags, d) == NotFound {
        forall p | Path(r, tags, p) ensures |p| <= d {
          PathsEnd(r, tags, d, p);
        }
        assert PathsUpTo(r, tags, d);
      } else {
        var p := FoundIsNearest(r, tags, d);
      }
    }
    if p, o :| LeadsTo(r, tags, p, o) {
      StopEnds(r, tags, p, o);
      assert EndsWithin(r, tags, |p|);
    }
    if n :| PathsUpTo(r, tags, n) {
      BoundedEnds(r, tags, n);
      assert EndsWithin(r, tags, n);
    }
  }

  lemma {:induction false} PathsEnd(r: Registry, tags: seq<Tag>, d: nat, p: seq<Tag>)
    requires Ends(r, tags, d) && Search(r, tags, d) == NotFound && Path(r, tags, p)
    ensures |p| <= d
    decreases d
  {
    FirstOutcome(r, tags);
    TailPath(r, tags, p);
    if |p| > 1 {
      PathsEnd(r, Children(r, tags), d - 1, p[1..]);
    }
  }

  lemma {:induction false} StopEnds(r: Registry, tags: seq<Tag>, p: seq<Tag>, o: Outcome)
    requires LeadsTo(r, tags, p, o)
    ensures Ends(r, tags, |p|)
    decreases |p|
  {
    if First(r, tags).None? {
      TailPath(r, tags, p);
      StopEnds(r, Children(r, tags), p[1..], o);
    }
  }

  lemma {:induction false} BoundedEnds(r: Registry, tags: seq<Tag>, n: nat)
    requires PathsUpTo(r, tags, n)
    ensures Ends(r, tags, n)
    decreases n
  {
    if First(r, tags).None? && tags != [] {
      ShorterBelow(r, tags, n);
      BoundedEnds(r, Children(r, tags), n - 1);
    }
  }

  lemma ShorterBelow(r: Registry, tags: seq<Tag>, n: nat)
    requires PathsUpTo(r, tags, n) && tags != []
    ensures n > 0 && PathsUpTo(r, Children(r, tags), n - 1)
  {
    assert Path(r, tags, [tags[0]]);
    forall q | Path(r, Children(r, tags), q) ensures |q| <= n - 1 {
      var t := ParentOf(r, tags, q[0]);
      assert Path(r, tags, [t] + q);
    }
  }
}
