/**
 Reading a video poll: arbitrary JSON trees, the failures and the finished media
 in them, and the URLs attached before a result is stored. The source mutates
 the parsed tree; here the tree with the URLs in it is the result of a function.
 */
module VideoResult {
  import opened Base

  /** An object keeps its keys and values in order, position by position. */
  datatype Json =
    | Null
    | Bool(truth: bool)
    | Num(number: real)
    | Text(text: string)
    | Arr(items: seq<Json>)
    | Obj(keys: seq<string>, items: seq<Json>)

  predicate Shaped(j: Json) {
    && (j.Obj? ==> |j.keys| == |j.items|)
    && (j.Arr? || j.Obj? ==> forall i | 0 <= i < |j.items| :: Shaped(j.items[i]))
  }

  function IndexOf(keys: seq<string>, key: string): (i: nat)
    ensures i <= |keys|
    ensures i < |keys| ==> keys[i] == key
    ensures forall k | 0 <= k < i :: keys[k] != key
  {
    if keys == [] || keys[0] == key then 0 else 1 + IndexOf(keys[1..], key)
  }

  /** node.get(key) of a dictionary; anything else has no fields. */
  function Lookup(j: Json, key: string): Option<Json> {
    if j.Obj? && IndexOf(j.keys, key) < |j.items| then Some(j.items[IndexOf(j.keys, key)]) else None
  }

  function LookupIn(j: Option<Json>, key: string): Option<Json> {
    if j.Some? then Lookup(j.value, key) else None
  }

  /** node[key] = value. */
  function Assigned(j: Json, key: string, value: Json): (r: Json)
    requires j.Obj? && |j.keys| == |j.items|
    ensures r.Obj? && |r.keys| == |r.items| && |j.items| <= |r.items| && r.items != []
    ensures forall i | 0 <= i < |r.items| :: r.items[i] == value || (i < |j.items| && r.items[i] == j.items[i])
  {
    var i := IndexOf(j.keys, key);
    if i < |j.items| then Obj(j.keys, j.items[i := value]) else Obj(j.keys + [key], j.items + [value])
  }

  predicate Truthy(j: Option<Json>) {
    j.Some? && match j.value
      case Null => false
      case Bool(b) => b
      case Num(n) => n != 0.0
      case Text(s) => s != ""
      case Arr(items) => items != []
      case Obj(keys, items) => items != []
  }

  // ----- generation status ----------------------------------------------------------------

  const SUCCESS := {"SUCCESS", "SUCCESSFUL", "SUCCEEDED", "COMPLETE", "COMPLETED", "DONE"}

  const FAILURE := {"ABORTED", "BLOCKED", "CANCELED", "CANCELLED", "ERROR", "EXPIRED", "FAILED", "FAILURE", "REJECTED", "TIMEOUT",
                   "UNSUCCESSFUL"}

  function UpperChar(c: char): char {
    if 'a' <= c <= 'z' then ((c as int) - 32) as char else c
  }

  function Upper(s: string): string {
    if s == [] then [] else [UpperChar(s[0])] + Upper(s[1..])
  }

  /** s.rsplit("_", 1)[-1]. */
  function LastSegment(s: string): string {
    if s == [] then []
    else if s[|s| - 1] == '_' then []
    else LastSegment(s[..|s| - 1]) + [s[|s| - 1]]
  }

  function Terminal(s: string): string { LastSegment(Upper(s)) }

  function StatusOf(j: Json): Option<Json> {
    LookupIn(LookupIn(Lookup(j, "mediaMetadata"), "mediaStatus"), "mediaGenerationStatus")
  }

  predicate Says(j: Json, words: set<string>) {
    StatusOf(j).Some? && StatusOf(j).value.Text? && Terminal(StatusOf(j).value.text) in words
  }

  predicate Succeeded(j: Json) { Says(j, SUCCESS) }

  predicate FailedHere(j: Json) { Says(j, FAILURE) }

  /** No node can report success and failure at once. */
  lemma SuccessIsNotFailure(j: Json)
    ensures !(Succeeded(j) && FailedHere(j))
  {
    assert SUCCESS !! FAILURE;
  }

  // ----- finished media --------------------------------------------------------------------

  /** A dictionary is complete by its own status, by a done flag without error, or through an ancestor. */
  predicate NodeDone(j: Json, inherited: bool) {
    || inherited
    || Succeeded(j)
    || (Lookup(j, "done") == Some(Bool(true)) && !Truthy(Lookup(j, "error")))
  }

  function Generated(j: Json): Option<Json> { LookupIn(Lookup(j, "video"), "generatedVideo") }

  /** A named dictionary with a generated video in it. */
  predicate IsVideo(j: Json) {
    && j.Obj?
    && Lookup(j, "name").Some? && Lookup(j, "name").value.Text?
    && Generated(j).Some? && Generated(j).value.Obj?
  }

  predicate Finished(j: Json, inherited: bool) { IsVideo(j) && NodeDone(j, inherited) }

  /** What the children of a node inherit. */
  predicate Inner(j: Json, inherited: bool) {
    if j.Obj? then NodeDone(j, inherited) else inherited
  }

  /** len(_completed_video_media(node, completed)). */
  function CountFinished(j: Json, inherited: bool): nat
    decreases j
  {
    if !j.Arr? && !j.Obj? then 0
    else (if Finished(j, inherited) then 1 else 0) + CountFinishedIn(j.items, Inner(j, inherited))
  }

  function CountFinishedIn(js: seq<Json>, inherited: bool): nat
    decreases js
  {
    if js == [] then 0 else CountFinished(js[0], inherited) + CountFinishedIn(js[1..], inherited)
  }

  // ----- failures ----------------------------------------------------------------------------

  predicate AnyFailed(j: Json)
    decreases j
  {
    FailedHere(j) || ((j.Arr? || j.Obj?) && exists i :: 0 <= i < |j.items| && AnyFailed(j.items[i]))
  }

  /** The operation an entry stands for: its own `operation` dictionary, or the entry itself. */
  function OperationOf(item: Json): Json {
    var inner := Lookup(item, "operation");
    if inner.Some? && inner.value.Obj? then inner.value else item
  }

  /** An `error` key, whatever its value. */
  predicate OperationFailed(item: Json) { item.Obj? && Lookup(OperationOf(item), "error").Some? }

  /** `for item in data.get("operations") or []`. */
  predicate Iterable(j: Option<Json>) { Truthy(j) ==> !j.value.Bool? && !j.value.Num? }

  function Entries(j: Option<Json>): seq<Json> {
    if j.Some? && j.value.Arr? then j.value.items else []
  }

  /** _video_status_failure. */
  predicate Reported(data: Json) {
    var es := Entries(Lookup(data, "operations"));
    (exists i :: 0 <= i < |es| && OperationFailed(es[i])) || AnyFailed(data)
  }

  // ----- attaching URLs ------------------------------------------------------------------------

  /** What resolve_media_url answered for each media id; an id is missing when the lookup failed. */
  datatype Answers = Answers(videos: map<string, string>, thumbnails: map<string, string>)

  const HTTPS := "https://"

  predicate IsHttps(s: string) { HTTPS <= s }

  function Or(a: Option<Json>, b: Option<Json>): Option<Json> { if Truthy(a) then a else b }

  function UrlFrom(existing: Option<Json>, name: Option<Json>, resolved: map<string, string>): Option<string> {
    if existing.Some? && existing.value.Text? && IsHttps(existing.value.text) then Some(existing.value.text)
    else if name.Some? && name.value.Text? && name.value.text != "" && name.value.text in resolved
            && IsHttps(resolved[name.value.text])
    then Some(resolved[name.value.text])
    else None
  }

  function VideoUrl(j: Json, a: Answers): Option<string> {
    UrlFrom(Or(LookupIn(Generated(j), "fifeUrl"), Lookup(j, "downloadUrl")), Lookup(j, "name"), a.videos)
  }

  function ThumbnailUrl(j: Json, a: Answers): Option<string> {
    UrlFrom(Or(LookupIn(Generated(j), "thumbnailUrl"), Lookup(j, "thumbnailUrl")), Lookup(j, "name"), a.thumbnails)
  }

  function CountAvailable(j: Json, inherited: bool, a: Answers): nat
    decreases j
  {
    if !j.Arr? && !j.Obj? then 0
    else (if Finished(j, inherited) && VideoUrl(j, a).Some? then 1 else 0) + CountAvailableIn(j.items, Inner(j, inherited), a)
  }

  function CountAvailableIn(js: seq<Json>, inherited: bool, a: Answers): nat
    decreases js
  {
    if js == [] then 0 else CountAvailable(js[0], inherited, a) + CountAvailableIn(js[1..], inherited, a)
  }

  function WithUrl(j: Json, key: string, url: Option<string>): Json
    requires j.Obj? && |j.keys| == |j.items|
  {
    if url.Some? then Assigned(j, key, Text(url.value)) else j
  }

  function WithUrls(j: Json, video: Option<string>, thumbnail: Option<string>): (r: Json)
    requires j.Obj? && |j.keys| == |j.items|
    ensures r.Obj? && |r.keys| == |r.items| && |j.items| <= |r.items|
    ensures forall i | 0 <= i < |r.items| :: r.items[i].Text? || (i < |j.items| && r.items[i] == j.items[i])
  {
    WithUrl(WithUrl(j, "downloadUrl", video), "thumbnailUrl", thumbnail)
  }

  lemma UrlsAreShaped(j: Json, video: Option<string>, thumbnail: Option<string>)
    requires j.Obj? && Shaped(j)
    ensures Shaped(WithUrls(j, video, thumbnail))
  {
    hide WithUrls;
    var r := WithUrls(j, video, thumbnail);
    assert forall i | 0 <= i < |r.items| :: Shaped(r.items[i]);
  }

  /** _attach_video_urls: every finished node gets the URLs that are available for it. */
  function Attached(j: Json, inherited: bool, a: Answers): (r: Json)
    requires Shaped(j)
    ensures Shaped(r)
    ensures r.Obj? == j.Obj? && r.Arr? == j.Arr?
    ensures !j.Obj? && !j.Arr? ==> r == j
    ensures j.Arr? ==> |r.items| == |j.items|
    ensures j.Obj? ==> |j.items| <= |r.items| && (r.items == [] ==> j.items == [])
    decreases j
  {
    if j.Arr? then Arr(AttachedAll(j.items, inherited, a))
    else if j.Obj? then
      var inside := Obj(j.keys, AttachedAll(j.items, NodeDone(j, inherited), a));
      if Finished(j, inherited)
      then
        UrlsAreShaped(inside, VideoUrl(j, a), ThumbnailUrl(j, a));
        WithUrls(inside, VideoUrl(j, a), ThumbnailUrl(j, a))
      else inside
    else j
  }

  function AttachedAll(js: seq<Json>, inherited: bool, a: Answers): (r: seq<Json>)
    requires forall i | 0 <= i < |js| :: Shaped(js[i])
    ensures |r| == |js| && forall i | 0 <= i < |r| :: Shaped(r[i]) && r[i] == Attached(js[i], inherited, a)
    decreases js
  {
    if js == [] then [] else [Attached(js[0], inherited, a)] + AttachedAll(js[1..], inherited, a)
  }

  // ----- the poll's verdict -----------------------------------------------------------------------

  datatype Verdict = Raises | Failure | NotYet | Running | Completed(stored: Json)

  predicate ExplicitError(data: Json) {
    exists i :: 0 <= i < |Entries(Lookup(data, "operations"))| &&
      var op := OperationOf(Entries(Lookup(data, "operations"))[i]);
      op.Obj? && Truthy(Lookup(op, "error"))
  }

  /** The branches of _poll_job once it holds a dictionary. */
  function Decide(data: Json, a: Answers): Verdict
    requires Shaped(data) && data.Obj?
  {
    if !Iterable(Lookup(data, "operations")) then Raises
    else if Reported(data) then Failure
    else if CountFinished(data, false) > 0 then
      if CountAvailable(data, false, a) < CountFinished(data, false) then NotYet
      else Completed(Attached(data, false, a))
    else if ExplicitError(data) then Failure
    else Running
  }

  predicate Linked(j: Json) {
    var url := Lookup(j, "downloadUrl");
    url.Some? && url.value.Text? && IsHttps(url.value.text)
  }

  /** Every finished node below carries an https download URL. */
  predicate AllLinked(j: Json, inherited: bool)
    decreases j
  {
    && (Finished(j, inherited) ==> Linked(j))
    && (j.Arr? || j.Obj? ==> forall i | 0 <= i < |j.items| :: AllLinked(j.items[i], Inner(j, inherited)))
  }

  /** Every finished node below has a URL of its own or a resolved one. */
  predicate AllAvailable(j: Json, inherited: bool, a: Answers)
    decreases j
  {
    && (Finished(j, inherited) ==> VideoUrl(j, a).Some?)
    && (j.Arr? || j.Obj? ==> forall i | 0 <= i < |j.items| :: AllAvailable(j.items[i], Inner(j, inherited), a))
  }

  // ----- counting ----------------------------------------------------------------------------------

  /** No more URLs than finished nodes, and as many exactly when each finished node has one. */
  lemma {:induction false} CountsAgree(j: Json, inherited: bool, a: Answers)
    ensures CountAvailable(j, inherited, a) <= CountFinished(j, inherited)
    ensures CountAvailable(j, inherited, a) == CountFinished(j, inherited) <==> AllAvailable(j, inherited, a)
    decreases j
  {
    if j.Arr? || j.Obj? {
      CountsAgreeIn(j.items, Inner(j, inherited), a);
    }
  }

  lemma {:induction false} CountsAgreeIn(js: seq<Json>, inherited: bool, a: Answers)
    ensures CountAvailableIn(js, inherited, a) <= CountFinishedIn(js, inherited)
    ensures CountAvailableIn(js, inherited, a) == CountFinishedIn(js, inherited) <==>
              forall i | 0 <= i < |js| :: AllAvailable(js[i], inherited, a)
    decreases js
  {
    if js != [] {
      CountsAgree(js[0], inherited, a);
      CountsAgreeIn(js[1..], inherited, a);
      assert forall i | 0 < i < |js| :: js[i] == js[1..][i - 1];
    }
  }

  lemma {:induction false} CountIsPositive(js: seq<Json>, inherited: bool)
    ensures CountFinishedIn(js, inherited) > 0 <==> exists i :: 0 <= i < |js| && CountFinished(js[i], inherited) > 0
  {
    if js != [] {
      CountIsPositive(js[1..], inherited);
      assert forall i | 0 < i < |js| :: js[i] == js[1..][i - 1];
    }
  }

  // ----- attaching changes nothing but the two URL fields ------------------------------------------------

  lemma AssignedLookup(j: Json, key: string, value: Json, other: string)
    requires j.Obj? && |j.keys| == |j.items|
    ensures Assigned(j, key, value).Obj? && |Assigned(j, key, value).keys| == |Assigned(j, key, value).items|
    ensures Lookup(Assigned(j, key, value), other) == if other == key then Some(value) else Lookup(j, other)
  {
    var i := IndexOf(j.keys, key);
    if i == |j.keys| {
      IndexSnoc(j.keys, key, other);
    }
  }

  lemma {:induction false} IndexSnoc(keys: seq<string>, key: string, other: string)
    ensures IndexOf(keys + [key], other) ==
            if IndexOf(keys, other) < |keys| then IndexOf(keys, other) else if other == key then |keys| else |keys| + 1
  {
    if keys != [] {
      IndexSnoc(keys[1..], key, other);
      assert (keys + [key])[1..] == keys[1..] + [key];
    }
  }

  predicate UrlKey(key: string) { key == "downloadUrl" || key == "thumbnailUrl" }

  lemma AttachedLookup(j: Json, inherited: bool, a: Answers, key: string)
    requires Shaped(j) && !UrlKey(key)
    ensures var before, after := Lookup(j, key), Lookup(Attached(j, inherited, a), key);
            && before.Some? == after.Some?
            && (before.Some? ==> Shaped(before.value) && after.value == Attached(before.value, Inner(j, inherited), a))
  {
    if j.Obj? {
      var inside := Obj(j.keys, AttachedAll(j.items, NodeDone(j, inherited), a));
      AssignedLookupBoth(inside, VideoUrl(j, a), ThumbnailUrl(j, a), key);
    }
  }

  lemma AssignedLookupBoth(j: Json, video: Option<string>, thumbnail: Option<string>, key: string)
    requires j.Obj? && |j.keys| == |j.items|
    ensures var r := WithUrls(j, video, thumbnail);
            && (!UrlKey(key) ==> Lookup(r, key) == Lookup(j, key))
            && (video.Some? ==> Lookup(r, "downloadUrl") == Some(Text(video.value)))
  {
    hide Assigned, Lookup;
    if video.Some? {
      AssignedLookup(j, "downloadUrl", Text(video.value), key);
      AssignedLookup(j, "downloadUrl", Text(video.value), "downloadUrl");
    }
    var k := WithUrl(j, "downloadUrl", video);
    if thumbnail.Some? {
      AssignedLookup(k, "thumbnailUrl", Text(thumbnail.value), key);
      AssignedLookup(k, "thumbnailUrl", Text(thumbnail.value), "downloadUrl");
    }
  }

  lemma AttachedTruthy(j: Json, inherited: bool, a: Answers)
    requires Shaped(j)
    ensures Truthy(Some(Attached(j, inherited, a))) == Truthy(Some(j))
  {
    if j.Obj? && j.items == [] {
      assert Lookup(j, "name").None?;
    }
  }

  lemma AttachedStatus(j: Json, inherited: bool, a: Answers)
    requires Shaped(j)
    ensures StatusOf(j).Some? == StatusOf(Attached(j, inherited, a)).Some?
    ensures forall words :: Says(Attached(j, inherited, a), words) == Says(j, words)
  {
    hide Attached, Lookup, Finished, NodeDone;
    AttachedLookup(j, inherited, a, "mediaMetadata");
    var metadata := Lookup(j, "mediaMetadata");
    if metadata.Some? {
      var first := Inner(j, inherited);
      AttachedLookup(metadata.value, first, a, "mediaStatus");
      var status := Lookup(metadata.value, "mediaStatus");
      if status.Some? {
        AttachedLookup(status.value, Inner(metadata.value, first), a, "mediaGenerationStatus");
      }
    }
  }

  lemma AttachedGenerated(j: Json, inherited: bool, a: Answers)
    requires Shaped(j)
    ensures Generated(j).Some? && Generated(j).value.Obj? <==>
            Generated(Attached(j, inherited, a)).Some? && Generated(Attached(j, inherited, a)).value.Obj?
  {
    hide Attached, Lookup, Finished, NodeDone;
    AttachedLookup(j, inherited, a, "video");
    var video := Lookup(j, "video");
    if video.Some? {
      AttachedLookup(video.value, Inner(j, inherited), a, "generatedVideo");
    }
  }

  /** Attaching keeps every node's own verdict: done, finished, failed. */
  lemma AttachedKeepsVerdict(j: Json, inherited: bool, a: Answers, flag: bool)
    requires Shaped(j)
    ensures var r := Attached(j, inherited, a);
            && NodeDone(r, flag) == NodeDone(j, flag)
            && Finished(r, flag) == Finished(j, flag)
            && FailedHere(r) == FailedHere(j)
            && Inner(r, flag) == Inner(j, flag)
  {
    hide Attached, Lookup, Says, StatusOf, Generated, Truthy;
    AttachedStatus(j, inherited, a);
    AttachedGenerated(j, inherited, a);
    AttachedLookup(j, inherited, a, "done");
    AttachedLookup(j, inherited, a, "error");
    AttachedLookup(j, inherited, a, "name");
    if Lookup(j, "error").Some? {
      AttachedTruthy(Lookup(j, "error").value, Inner(j, inherited), a);
    }
    TruthyNone();
  }

  lemma TruthyNone()
    ensures !Truthy(None)
  {
  }

  /** The children of an attached node: the attached children, apart from the two URL fields. */
  lemma AttachedChildren(j: Json, inherited: bool, a: Answers, i: nat)
    requires Shaped(j) && (j.Arr? || j.Obj?) && i < |Attached(j, inherited, a).items|
    ensures var child := Attached(j, inherited, a).items[i];
            || (child.Text? && Finished(j, inherited))
            || (i < |j.items| && child == Attached(j.items[i], Inner(j, inherited), a))
  {
    hide Finished, NodeDone, WithUrls, VideoUrl, ThumbnailUrl;
  }

  lemma {:induction false} AttachedNoFailure(j: Json, inherited: bool, a: Answers)
    requires Shaped(j) && !AnyFailed(j)
    ensures !AnyFailed(Attached(j, inherited, a))
    decreases j
  {
    hide Attached;
    var r := Attached(j, inherited, a);
    AttachedKeepsVerdict(j, inherited, a, inherited);
    hide FailedHere, Finished, NodeDone;
    if j.Arr? || j.Obj? {
      forall i | 0 <= i < |r.items| ensures !AnyFailed(r.items[i]) {
        AttachedChildren(j, inherited, a, i);
        if r.items[i].Text? {
          TextHasNoStatus(r.items[i]);
        } else {
          AttachedNoFailure(j.items[i], Inner(j, inherited), a);
        }
      }
    }
  }

  lemma TextHasNoStatus(j: Json)
    requires j.Text?
    ensures !FailedHere(j)
  {
  }

  lemma {:induction false} AttachedIsLinked(j: Json, inherited: bool, a: Answers)
    requires Shaped(j) && AllAvailable(j, inherited, a)
    ensures AllLinked(Attached(j, inherited, a), inherited)
    decreases j
  {
    var r := Attached(j, inherited, a);
    AttachedKeepsVerdict(j, inherited, a, inherited);
    if Finished(j, inherited) {
      var inside := Obj(j.keys, AttachedAll(j.items, NodeDone(j, inherited), a));
      AssignedLookupBoth(inside, VideoUrl(j, a), ThumbnailUrl(j, a), "downloadUrl");
    }
    hide Attached, Finished, NodeDone, VideoUrl, Lookup;
    if j.Arr? || j.Obj? {
      forall i | 0 <= i < |r.items| ensures AllLinked(r.items[i], Inner(r, inherited)) {
        AttachedChildren(j, inherited, a, i);
        if r.items[i].Text? {
          TextIsLinked(r.items[i], Inner(r, inherited));
        } else {
          AttachedIsLinked(j.items[i], Inner(j, inherited), a);
        }
      }
    }
  }

  lemma TextIsLinked(j: Json, inherited: bool)
    requires j.Text?
    ensures AllLinked(j, inherited)
  {
  }

  lemma {:induction false} AttachedStaysFinished(j: Json, inherited: bool, a: Answers)
    requires Shaped(j) && CountFinished(j, inherited) > 0
    ensures CountFinished(Attached(j, inherited, a), inherited) > 0
    decreases j
  {
    var r := Attached(j, inherited, a);
    AttachedKeepsVerdict(j, inherited, a, inherited);
    if !Finished(j, inherited) {
      CountIsPositive(j.items, Inner(j, inherited));
      var i :| 0 <= i < |j.items| && CountFinished(j.items[i], Inner(j, inherited)) > 0;
      AttachedStaysFinished(j.items[i], Inner(j, inherited), a);
      assert r.items[i] == Attached(j.items[i], Inner(j, inherited), a);
      CountIsPositive(r.items, Inner(r, inherited));
    }
  }

  lemma AttachedNoOperationError(data: Json, a: Answers)
    requires Shaped(data)
    requires forall i | 0 <= i < |Entries(Lookup(data, "operations"))| :: !OperationFailed(Entries(Lookup(data, "operations"))[i])
    ensures var es := Entries(Lookup(Attached(data, false, a), "operations"));
            forall i | 0 <= i < |es| :: !OperationFailed(es[i])
  {
    hide Lookup, NodeDone, Finished;
    AttachedLookup(data, false, a, "operations");
    var es := Entries(Lookup(data, "operations"));
    var fs := Entries(Lookup(Attached(data, false, a), "operations"));
    var flag := Inner(data, false);
    if Lookup(data, "operations").Some? {
      assert |fs| == |es|;
      forall i | 0 <= i < |fs| ensures !OperationFailed(fs[i]) {
        assert fs[i] == Attached(es[i], flag, a);
        OperationKept(es[i], flag, a);
      }
    }
  }

  lemma OperationKept(item: Json, inherited: bool, a: Answers)
    requires Shaped(item)
    ensures OperationFailed(Attached(item, inherited, a)) == OperationFailed(item)
  {
    hide Lookup, NodeDone, Finished, Attached;
    AttachedLookup(item, inherited, a, "operation");
    AttachedLookup(item, inherited, a, "error");
    var inner := Lookup(item, "operation");
    if inner.Some? {
      AttachedLookup(inner.value, Inner(item, inherited), a, "error");
    }
  }

  // ----- the promises ----------------------------------------------------------------------------------------

  /**
   A polled job is stored as completed exactly when no node reports a failure,
   some media is finished, and every finished one has an https URL.
   */
  lemma CompletedExactly(data: Json, a: Answers)
    requires Shaped(data) && data.Obj?
    ensures Decide(data, a).Completed? <==>
              && Iterable(Lookup(data, "operations"))
              && !Reported(data)
              && CountFinished(data, false) > 0
              && AllAvailable(data, false, a)
  {
    hide Reported, Attached, CountFinished, CountAvailable, AllAvailable;
    CountsAgree(data, false, a);
  }

  /**
   And what is stored is complete: it reports no failure, holds a finished video,
   and each finished node in it, also under a done ancestor, carries its https URL.
   */
  lemma StoredIsComplete(data: Json, a: Answers)
    requires Shaped(data) && data.Obj? && Decide(data, a).Completed?
    ensures !Reported(Decide(data, a).stored)
    ensures CountFinished(Decide(data, a).stored, false) > 0
    ensures AllLinked(Decide(data, a).stored, false)
  {
    hide Attached, CountFinished, CountAvailable, AllAvailable, AnyFailed, AllLinked, Lookup, OperationFailed, Iterable;
    CountsAgree(data, false, a);
    AttachedNoFailure(data, false, a);
    AttachedNoOperationError(data, a);
    AttachedIsLinked(data, false, a);
    AttachedStaysFinished(data, false, a);
  }

  /** What is stored is the tree with its URLs. */
  lemma StoredIsAttached(data: Json, a: Answers)
    requires Shaped(data) && data.Obj? && Decide(data, a).Completed?
    ensures Decide(data, a).stored == Attached(data, false, a)
  {
    hide Attached, Reported, CountFinished, CountAvailable, ExplicitError;
  }

  // ----- the same by position in the tree ---------------------------------------------------------------------

  /** Positions of the children taken on the way down. */
  predicate IsPath(j: Json, path: seq<nat>)
    decreases |path|
  {
    path == [] || ((j.Arr? || j.Obj?) && path[0] < |j.items| && IsPath(j.items[path[0]], path[1..]))
  }

  function At(j: Json, path: seq<nat>): Json
    requires IsPath(j, path)
    decreases |path|
  {
    if path == [] then j else At(j.items[path[0]], path[1..])
  }

  lemma {:induction false} PrefixIsPath(j: Json, path: seq<nat>, k: nat)
    requires IsPath(j, path) && k <= |path|
    ensures IsPath(j, path[..k])
    decreases |path|
  {
    if k > 0 {
      PrefixIsPath(j.items[path[0]], path[1..], k - 1);
      assert path[..k][1..] == path[1..][..k - 1];
    }
  }

  /** Done by its own status or flag. */
  predicate DoneItself(j: Json) { j.Obj? && NodeDone(j, false) }

  /** A video below a done node, or done itself, is linked, however deep it sits. */
  lemma {:induction false} LinkedAt(j: Json, inherited: bool, path: seq<nat>, k: nat)
    requires AllLinked(j, inherited) && IsPath(j, path) && k <= |path| && IsPath(j, path[..k])
    requires inherited || DoneItself(At(j, path[..k]))
    requires IsVideo(At(j, path))
    ensures Linked(At(j, path))
    decreases |path|
  {
    hide Linked, IsVideo;
    if path == [] {
      assert Finished(j, inherited);
    } else {
      var child := j.items[path[0]];
      if k > 0 {
        assert path[..k][1..] == path[1..][..k - 1];
        LinkedAt(child, Inner(j, inherited), path[1..], k - 1);
      } else {
        LinkedAt(child, Inner(j, inherited), path[1..], 0);
      }
    }
  }

  lemma {:induction false} NoFailureAt(j: Json, path: seq<nat>)
    requires !AnyFailed(j) && IsPath(j, path)
    ensures !FailedHere(At(j, path))
    decreases |path|
  {
    hide FailedHere;
    if path != [] {
      NoFailureAt(j.items[path[0]], path[1..]);
    }
  }

  /**
   Anywhere in a stored result: no node has failed, and a video node that is done,
   itself or through the node at any prefix of its path, has its https URL.
   */
  lemma StoredIsCompleteEverywhere(data: Json, a: Answers, path: seq<nat>, k: nat)
    requires Shaped(data) && data.Obj? && Decide(data, a).Completed?
    requires IsPath(Decide(data, a).stored, path) && k <= |path|
    ensures var stored := Decide(data, a).stored;
            && !FailedHere(At(stored, path))
            && IsPath(stored, path[..k])
            && (IsVideo(At(stored, path)) && DoneItself(At(stored, path[..k])) ==> Linked(At(stored, path)))
  {
    StoredIsComplete(data, a);
    var stored := Decide(data, a).stored;
    hide Decide, AllLinked, AnyFailed, FailedHere, Linked, IsVideo, CountFinished;
    NoFailureAt(stored, path);
    PrefixIsPath(stored, path, k);
    if IsVideo(At(stored, path)) && DoneItself(At(stored, path[..k])) {
      LinkedAt(stored, false, path, k);
    }
  }

  /** Some operation carries an error key whose value is null, false, zero or empty. */
  predicate FalsyError(data: Json) {
    exists i :: 0 <= i < |Entries(Lookup(data, "operations"))| &&
      var op := OperationOf(Entries(Lookup(data, "operations"))[i]);
      op.Obj? && Lookup(op, "error").Some? && !Truthy(Lookup(op, "error"))
  }

  lemma OperationIsObject(item: Json)
    ensures OperationOf(item).Obj? <==> item.Obj?
    ensures OperationFailed(item) <==> OperationOf(item).Obj? && Lookup(OperationOf(item), "error").Some?
  {
    if !item.Obj? {
      NotAnObject(item);
    }
  }

  /**
   What counts as a failure is exactly: a failed media status anywhere, an
   operation error with something in it, or an error key with nothing in it.
   Without the last, it is exactly the first two.
   */
  lemma ReportedExactly(data: Json)
    ensures Reported(data) <==> AnyFailed(data) || ExplicitError(data) || FalsyError(data)
    ensures !FalsyError(data) ==> (Reported(data) <==> AnyFailed(data) || ExplicitError(data))
  {
    hide AnyFailed, Lookup, Truthy, OperationFailed, OperationOf;
    var es := Entries(Lookup(data, "operations"));
    forall i | 0 <= i < |es|
      ensures OperationFailed(es[i]) <==> OperationOf(es[i]).Obj? && Lookup(OperationOf(es[i]), "error").Some?
    {
      OperationIsObject(es[i]);
    }
    NoErrorIsFalsy();
    if ExplicitError(data) {
      var i :| 0 <= i < |es| && OperationOf(es[i]).Obj? && Truthy(Lookup(OperationOf(es[i]), "error"));
      assert OperationFailed(es[i]);
    }
    if FalsyError(data) {
      var i :| 0 <= i < |es| && OperationOf(es[i]).Obj? && Lookup(OperationOf(es[i]), "error").Some?;
      assert OperationFailed(es[i]);
    }
    if i :| 0 <= i < |es| && OperationFailed(es[i]) {
      var op := OperationOf(es[i]);
      assert op.Obj? && Lookup(op, "error").Some?;
    }
  }

  lemma NoErrorIsFalsy()
    ensures forall j: Option<Json> :: Truthy(j) ==> j.Some?
  {
  }

  /** The later scan for an operation error never decides anything: such an error has already been reported. */
  lemma ExplicitErrorIsDead(data: Json)
    requires ExplicitError(data)
    ensures Reported(data)
  {
    hide Reported, ExplicitError;
    ReportedExactly(data);
  }

  lemma NotAnObject(j: Json)
    requires !j.Obj?
    ensures Lookup(j, "operation").None?
  {
  }

  /** An operation whose error field is null is reported as failed all the same. */
  lemma NullErrorIsReported(name: string)
    ensures Reported(Obj(["operations"], [Arr([Obj(["operation"], [Obj(["name", "error"], [Text(name), Null])])])]))
  {
    var inner := Obj(["name", "error"], [Text(name), Null]);
    var item := Obj(["operation"], [inner]);
    var data := Obj(["operations"], [Arr([item])]);
    assert IndexOf(["name", "error"], "error") == 1 by {
      assert ["name", "error"][1..] == ["error"];
    }
    assert Lookup(inner, "error") == Some(Null);
    assert OperationOf(item) == inner;
    assert Lookup(data, "operations") == Some(Arr([item]));
    assert OperationFailed(Entries(Lookup(data, "operations"))[0]);
  }

  // ----- statuses in literal words -------------------------------------------------------------------------------

  lemma {:induction false} UpperExactly(s: string)
    ensures |Upper(s)| == |s|
    ensures forall i | 0 <= i < |s| :: Upper(s)[i] == if 'a' <= s[i] <= 'z' then s[i] - 'a' + 'A' else s[i]
  {
    if s != [] {
      UpperExactly(s[1..]);
    }
  }

  lemma {:induction false} LastSegmentExactly(prefix: string, word: string)
    requires '_' !in word
    ensures LastSegment(word) == word && LastSegment(prefix + "_" + word) == word
  {
    if word == [] {
      assert prefix + "_" + word == prefix + "_";
    } else {
      var init := word[..|word| - 1];
      var whole := prefix + "_" + word;
      assert word == init + [word[|word| - 1]];
      assert whole[..|whole| - 1] == prefix + "_" + init;
      LastSegmentExactly(prefix, init);
    }
  }

  lemma UpperJoins(a: string, b: string)
    ensures Upper(a + b) == Upper(a) + Upper(b)
  {
    UpperExactly(a);
    UpperExactly(b);
    UpperExactly(a + b);
  }

  /** Only what follows the last underscore counts, in upper case. */
  lemma TerminalExactly(prefix: string, word: string)
    requires '_' !in word
    ensures Terminal(word) == Upper(word) && Terminal(prefix + "_" + word) == Upper(word)
  {
    UpperExactly(word);
    assert '_' !in Upper(word) by {
      assert forall i | 0 <= i < |word| :: word[i] in word;
    }
    UpperJoins(prefix + "_", word);
    UpperJoins(prefix, "_");
    assert Upper("_") == "_" by {
      assert "_"[1..] == [];
    }
    LastSegmentExactly(Upper(prefix), Upper(word));
    assert Upper(prefix + "_" + word) == Upper(prefix) + "_" + Upper(word);
  }

  /** The status text of a node, three keys down. */
  predicate HasStatus(j: Json, text: string) {
    && Lookup(j, "mediaMetadata").Some?
    && Lookup(Lookup(j, "mediaMetadata").value, "mediaStatus").Some?
    && Lookup(Lookup(Lookup(j, "mediaMetadata").value, "mediaStatus").value, "mediaGenerationStatus") == Some(Text(text))
  }

  ghost predicate FailureStatus(j: Json) {
    exists text ::
      && HasStatus(j, text)
      && Terminal(text) in {"ABORTED", "BLOCKED", "CANCELED", "CANCELLED", "ERROR", "EXPIRED", "FAILED", "FAILURE",
                            "REJECTED", "TIMEOUT", "UNSUCCESSFUL"}
  }

  ghost predicate SuccessStatus(j: Json) {
    exists text ::
      && HasStatus(j, text)
      && Terminal(text) in {"SUCCESS", "SUCCESSFUL", "SUCCEEDED", "COMPLETE", "COMPLETED", "DONE"}
  }

  /** A node has failed, or succeeded, by the last word of its status and by nothing else. */
  lemma StatusExactly(j: Json)
    ensures FailedHere(j) <==> FailureStatus(j)
    ensures Succeeded(j) <==> SuccessStatus(j)
  {
    hide Terminal, Lookup;
    if StatusOf(j).Some? && StatusOf(j).value.Text? {
      assert HasStatus(j, StatusOf(j).value.text);
    }
  }

  // ----- the verdict by position -----------------------------------------------------------------------------------

  /** Absent, or one of the values that count as nothing. */
  predicate Blank(j: Option<Json>) {
    || j in {None, Some(Null), Some(Bool(false)), Some(Num(0.0)), Some(Text("")), Some(Arr([]))}
    || (j.Some? && j.value.Obj? && |j.value.items| == 0)
  }

  lemma BlankExactly(j: Option<Json>)
    ensures Truthy(j) <==> !Blank(j)
  {
  }

  /** Done by its status, or by a true done flag beside no error. */
  ghost predicate DoneNode(j: Json) {
    && j.Obj?
    && (SuccessStatus(j) || (Lookup(j, "done") == Some(Bool(true)) && Blank(Lookup(j, "error"))))
  }

  /** An object with a text as name and an object under video.generatedVideo. */
  predicate VideoNode(j: Json) {
    && j.Obj? && Lookup(j, "name").Some? && Lookup(j, "name").value.Text?
    && Lookup(j, "video").Some? && Lookup(Lookup(j, "video").value, "generatedVideo").Some?
    && Lookup(Lookup(j, "video").value, "generatedVideo").value.Obj?
  }

  /** A video that is done, or sits below a node that is. */
  ghost predicate FinishedAt(j: Json, path: seq<nat>) {
    && IsPath(j, path) && VideoNode(At(j, path))
    && exists k :: 0 <= k <= |path| && IsPath(j, path[..k]) && DoneNode(At(j, path[..k]))
  }

  /** Some node anywhere has failed. */
  ghost predicate FailedSomewhere(j: Json) {
    exists path :: IsPath(j, path) && FailureStatus(At(j, path))
  }

  /** An entry of the operations list has an `error` key, in its `operation` object if it has one. */
  predicate ErrorKey(item: Json) {
    && item.Obj?
    && if Lookup(item, "operation").Some? && Lookup(item, "operation").value.Obj?
       then Lookup(Lookup(item, "operation").value, "error").Some?
       else Lookup(item, "error").Some?
  }

  ghost predicate OperationError(data: Json) {
    && Lookup(data, "operations").Some? && Lookup(data, "operations").value.Arr?
    && exists i :: 0 <= i < |Lookup(data, "operations").value.items| && ErrorKey(Lookup(data, "operations").value.items[i])
  }

  /** `operations` is true or a number other than zero: the loop over it raises. */
  predicate BadOperations(data: Json) {
    && Lookup(data, "operations").Some?
    && (Lookup(data, "operations").value == Bool(true)
        || (Lookup(data, "operations").value.Num? && Lookup(data, "operations").value.number != 0.0))
  }

  /** Its own https URL, under fifeUrl or else downloadUrl, or an https one resolved for its name. */
  predicate HasUrl(j: Json, a: Answers) {
    var fife := if Lookup(j, "video").Some? && Lookup(Lookup(j, "video").value, "generatedVideo").Some?
                then Lookup(Lookup(Lookup(j, "video").value, "generatedVideo").value, "fifeUrl") else None;
    var own := if Blank(fife) then Lookup(j, "downloadUrl") else fife;
    || (own.Some? && own.value.Text? && "https://" <= own.value.text)
    || (&& Lookup(j, "name").Some? && Lookup(j, "name").value.Text? && Lookup(j, "name").value.text != ""
        && Lookup(j, "name").value.text in a.videos && "https://" <= a.videos[Lookup(j, "name").value.text])
  }

  lemma DoneExactly(j: Json)
    requires j.Obj?
    ensures NodeDone(j, false) <==> DoneNode(j)
    ensures NodeDone(j, true)
  {
    hide Lookup, Truthy, Blank, Says, SuccessStatus;
    StatusExactly(j);
    BlankExactly(Lookup(j, "error"));
  }

  lemma VideoExactly(j: Json)
    ensures IsVideo(j) <==> VideoNode(j)
  {
    hide Lookup;
  }

  lemma UrlExactly(j: Json, a: Answers)
    ensures VideoUrl(j, a).Some? <==> HasUrl(j, a)
  {
    hide Lookup, Truthy, Blank;
    BlankExactly(LookupIn(Generated(j), "fifeUrl"));
    if Generated(j).None? { NothingIsBlank(); }
  }

  lemma NothingIsBlank()
    ensures Blank(None)
  {
  }

  lemma OperationExactly(data: Json)
    ensures (exists i :: 0 <= i < |Entries(Lookup(data, "operations"))| && OperationFailed(Entries(Lookup(data, "operations"))[i]))
            <==> OperationError(data)
    ensures Iterable(Lookup(data, "operations")) <==> !BadOperations(data)
  {
    hide Lookup;
    var es := Entries(Lookup(data, "operations"));
    forall i | 0 <= i < |es| ensures OperationFailed(es[i]) <==> ErrorKey(es[i]) {
      OperationIsObject(es[i]);
    }
    hide OperationFailed, ErrorKey;
    if OperationError(data) {
      var i :| 0 <= i < |es| && ErrorKey(es[i]);
      assert OperationFailed(es[i]);
    }
  }

  lemma {:induction false} FailedByPath(j: Json)
    ensures AnyFailed(j) <==> FailedSomewhere(j)
    decreases j
  {
    hide FailedHere, FailureStatus;
    StatusExactly(j);
    if AnyFailed(j) {
      if FailedHere(j) {
        assert IsPath(j, []) && At(j, []) == j;
      } else {
        var i :| 0 <= i < |j.items| && AnyFailed(j.items[i]);
        FailedByPath(j.items[i]);
        var path :| IsPath(j.items[i], path) && FailureStatus(At(j.items[i], path));
        assert ([i] + path)[1..] == path;
        assert IsPath(j, [i] + path) && At(j, [i] + path) == At(j.items[i], path);
      }
    } else {
      forall path | IsPath(j, path) ensures !FailureStatus(At(j, path)) {
        NoFailureAt(j, path);
        StatusExactly(At(j, path));
      }
    }
  }

  /** Done within j, or above it. */
  ghost predicate DoneWithin(j: Json, inherited: bool, path: seq<nat>) {
    inherited || exists k :: 0 <= k <= |path| && IsPath(j, path[..k]) && DoneNode(At(j, path[..k]))
  }

  /** Finished at a path, when something above the root may be done already. */
  ghost predicate FinishedBelow(j: Json, inherited: bool, path: seq<nat>) {
    IsPath(j, path) && VideoNode(At(j, path)) && DoneWithin(j, inherited, path)
  }

  lemma DoneStep(j: Json, inherited: bool, path: seq<nat>)
    requires IsPath(j, path) && path != []
    ensures DoneWithin(j, inherited, path) <==> DoneWithin(j.items[path[0]], Inner(j, inherited), path[1..])
  {
    hide DoneNode, NodeDone;
    var child, rest := j.items[path[0]], path[1..];
    if j.Obj? { DoneExactly(j); DoneOrInherited(j, inherited); }
    NotObjNotDone(j);
    forall k | 0 <= k <= |rest|
      ensures IsPath(j, path[..k + 1]) <==> IsPath(child, rest[..k])
      ensures IsPath(child, rest[..k]) ==> At(j, path[..k + 1]) == At(child, rest[..k])
    {
      assert path[..k + 1][1..] == rest[..k] && path[..k + 1][0] == path[0];
    }
    assert path[..0] == [] && At(j, path[..0]) == j;
    if k :| 0 <= k <= |rest| && IsPath(child, rest[..k]) && DoneNode(At(child, rest[..k])) {
      assert IsPath(j, path[..k + 1]) && DoneNode(At(j, path[..k + 1]));
    }
    if k :| 0 <= k <= |path| && IsPath(j, path[..k]) && DoneNode(At(j, path[..k])) {
      if k > 0 {
        assert IsPath(child, rest[..k - 1]) && DoneNode(At(child, rest[..k - 1]));
      }
    }
  }

  lemma DoneOrInherited(j: Json, inherited: bool)
    ensures NodeDone(j, inherited) <==> inherited || NodeDone(j, false)
  {
  }

  lemma NotObjNotDone(j: Json)
    ensures DoneNode(j) ==> j.Obj?
  {
  }

  lemma FinishedHere(j: Json, inherited: bool)
    ensures Finished(j, inherited) <==> FinishedBelow(j, inherited, [])
  {
    hide DoneNode, NodeDone, IsVideo, VideoNode;
    VideoExactly(j);
    assert IsPath(j, []) && At(j, []) == j;
    if j.Obj? { DoneExactly(j); DoneOrInherited(j, inherited); }
    NotObjNotDone(j);
    VideoIsObj(j);
    DoneAtRoot(j, inherited);
  }

  lemma DoneAtRoot(j: Json, inherited: bool)
    ensures DoneWithin(j, inherited, []) <==> inherited || DoneNode(j)
  {
    hide DoneNode;
    var root: seq<nat> := [];
    assert root[..0] == root && IsPath(j, root) && At(j, root) == j;
    if k :| 0 <= k <= |root| && IsPath(j, root[..k]) && DoneNode(At(j, root[..k])) {
      assert root[..k] == root;
    }
  }

  lemma VideoIsObj(j: Json)
    ensures IsVideo(j) ==> j.Obj?
  {
  }

  lemma FinishedStep(j: Json, inherited: bool, path: seq<nat>)
    requires IsPath(j, path) && path != []
    ensures FinishedBelow(j, inherited, path) <==> FinishedBelow(j.items[path[0]], Inner(j, inherited), path[1..])
  {
    hide DoneNode, VideoNode, Inner;
    DoneStep(j, inherited, path);
  }

  lemma {:induction false} FinishedByPath(j: Json, inherited: bool)
    ensures CountFinished(j, inherited) > 0 <==> exists path :: FinishedBelow(j, inherited, path)
    decreases j
  {
    hide Finished, FinishedBelow, Inner;
    FinishedHere(j, inherited);
    if j.Arr? || j.Obj? {
      CountIsPositive(j.items, Inner(j, inherited));
      forall i | 0 <= i < |j.items| { FinishedByPath(j.items[i], Inner(j, inherited)); }
    }
    FinishedPaths(j, inherited);
    FinishedIsContainer(j, inherited);
  }

  lemma FinishedIsContainer(j: Json, inherited: bool)
    ensures Finished(j, inherited) ==> j.Obj?
  {
  }

  /** A finished path is empty, or goes on below one child. */
  lemma FinishedPaths(j: Json, inherited: bool)
    ensures (exists path :: FinishedBelow(j, inherited, path)) <==>
              || FinishedBelow(j, inherited, [])
              || ((j.Arr? || j.Obj?) &&
                  exists i, path :: 0 <= i < |j.items| && FinishedBelow(j.items[i], Inner(j, inherited), path))
  {
    hide DoneNode, VideoNode, Inner;
    if path :| FinishedBelow(j, inherited, path) && path != [] {
      FinishedStep(j, inherited, path);
      assert FinishedBelow(j.items[path[0]], Inner(j, inherited), path[1..]);
    }
    if (j.Arr? || j.Obj?) {
      if i, path :| 0 <= i < |j.items| && FinishedBelow(j.items[i], Inner(j, inherited), path) {
        assert ([i] + path)[1..] == path;
        assert IsPath(j, [i] + path);
        FinishedStep(j, inherited, [i] + path);
        assert FinishedBelow(j, inherited, [i] + path);
      }
    }
  }

  lemma {:induction false} AvailableByPath(j: Json, inherited: bool, a: Answers)
    ensures AllAvailable(j, inherited, a) <==>
              forall path | FinishedBelow(j, inherited, path) :: IsPath(j, path) && HasUrl(At(j, path), a)
    decreases j
  {
    hide Finished, FinishedBelow, Inner, HasUrl, VideoUrl;
    FinishedHere(j, inherited);
    UrlExactly(j, a);
    assert IsPath(j, []) && At(j, []) == j;
    if j.Arr? || j.Obj? {
      forall i | 0 <= i < |j.items| { AvailableByPath(j.items[i], Inner(j, inherited), a); }
    }
    if AllAvailable(j, inherited, a) {
      forall path | FinishedBelow(j, inherited, path) ensures IsPath(j, path) && HasUrl(At(j, path), a) {
        FinishedIsPath(j, inherited, path);
        if path != [] {
          FinishedStep(j, inherited, path);
          assert HasUrl(At(j.items[path[0]], path[1..]), a);
        }
      }
    }
    if forall path | FinishedBelow(j, inherited, path) :: IsPath(j, path) && HasUrl(At(j, path), a) {
      if j.Arr? || j.Obj? {
        forall i | 0 <= i < |j.items| ensures AllAvailable(j.items[i], Inner(j, inherited), a) {
          forall path | FinishedBelow(j.items[i], Inner(j, inherited), path)
            ensures IsPath(j.items[i], path) && HasUrl(At(j.items[i], path), a)
          {
            FinishedIsPath(j.items[i], Inner(j, inherited), path);
            assert ([i] + path)[1..] == path;
            assert IsPath(j, [i] + path) && At(j, [i] + path) == At(j.items[i], path);
            FinishedStep(j, inherited, [i] + path);
            assert FinishedBelow(j, inherited, [i] + path);
          }
        }
      }
    }
  }

  lemma FinishedIsPath(j: Json, inherited: bool, path: seq<nat>)
    ensures FinishedBelow(j, inherited, path) ==> IsPath(j, path)
  {
  }

  /**
   The whole decision by position and literal words: which trees raise, fail,
   wait for a URL, complete, and are still running.
   */
  lemma VerdictExactly(data: Json, a: Answers)
    requires Shaped(data) && data.Obj?
    ensures Decide(data, a).Raises? <==> BadOperations(data)
    ensures Decide(data, a).Failure? <==> !BadOperations(data) && (FailedSomewhere(data) || OperationError(data))
    ensures Decide(data, a).Running? <==>
              && !BadOperations(data) && !FailedSomewhere(data) && !OperationError(data)
              && forall path :: !FinishedAt(data, path)
    ensures Decide(data, a).NotYet? <==>
              && !BadOperations(data) && !FailedSomewhere(data) && !OperationError(data)
              && exists path :: FinishedAt(data, path) && !HasUrl(At(data, path), a)
    ensures Decide(data, a).Completed? <==>
              && !BadOperations(data) && !FailedSomewhere(data) && !OperationError(data)
              && (exists path :: FinishedAt(data, path))
              && forall path | FinishedAt(data, path) :: HasUrl(At(data, path), a)
  {
    hide AnyFailed, FailedSomewhere, OperationFailed, OperationError, BadOperations, HasUrl, Lookup, CountFinished, CountAvailable,
         AllAvailable, Iterable, Attached, ExplicitError, DoneNode, VideoNode;
    FailedByPath(data);
    OperationExactly(data);
    FinishedByPath(data, false);
    AvailableByPath(data, false, a);
    CountsAgree(data, false, a);
    assert forall path :: FinishedAt(data, path) <==> FinishedBelow(data, false, path);
    if ExplicitError(data) { ExplicitErrorIsDead(data); }
  }

  // ----- which URL goes where ----------------------------------------------------------------------------------------

  /** The URL a finished node gets: its own if that is https, else an https one that was resolved for its name. */
  predicate UrlIs(j: Json, inner: string, outer: string, resolved: map<string, string>, url: string) {
    var first := if Lookup(j, "video").Some? && Lookup(Lookup(j, "video").value, "generatedVideo").Some?
                 then Lookup(Lookup(Lookup(j, "video").value, "generatedVideo").value, inner) else None;
    var own := if Blank(first) then Lookup(j, outer) else first;
    && "https://" <= url
    && if own.Some? && own.value.Text? && "https://" <= own.value.text then own.value.text == url
       else && Lookup(j, "name").Some? && Lookup(j, "name").value.Text? && Lookup(j, "name").value.text != ""
            && Lookup(j, "name").value.text in resolved && resolved[Lookup(j, "name").value.text] == url
  }

  lemma UrlIsExactly(j: Json, a: Answers, url: string)
    ensures VideoUrl(j, a) == Some(url) <==> UrlIs(j, "fifeUrl", "downloadUrl", a.videos, url)
    ensures ThumbnailUrl(j, a) == Some(url) <==> UrlIs(j, "thumbnailUrl", "thumbnailUrl", a.thumbnails, url)
  {
    hide Lookup, Truthy, Blank;
    BlankExactly(LookupIn(Generated(j), "fifeUrl"));
    BlankExactly(LookupIn(Generated(j), "thumbnailUrl"));
    NothingIsBlank();
  }

  /** The two fields that WithUrls writes. */
  lemma WithUrlsLookup(j: Json, video: Option<string>, thumbnail: Option<string>)
    requires j.Obj? && |j.keys| == |j.items|
    ensures var r := WithUrls(j, video, thumbnail);
            && Lookup(r, "downloadUrl") == (if video.Some? then Some(Text(video.value)) else Lookup(j, "downloadUrl"))
            && Lookup(r, "thumbnailUrl") == (if thumbnail.Some? then Some(Text(thumbnail.value)) else Lookup(j, "thumbnailUrl"))
  {
    hide Assigned, Lookup;
    if video.Some? {
      AssignedLookup(j, "downloadUrl", Text(video.value), "downloadUrl");
      AssignedLookup(j, "downloadUrl", Text(video.value), "thumbnailUrl");
    }
    var k := WithUrl(j, "downloadUrl", video);
    if thumbnail.Some? {
      AssignedLookup(k, "thumbnailUrl", Text(thumbnail.value), "downloadUrl");
      AssignedLookup(k, "thumbnailUrl", Text(thumbnail.value), "thumbnailUrl");
    }
  }

  lemma ChildLookup(j: Json, inherited: bool, a: Answers, key: string)
    requires Shaped(j) && j.Obj?
    ensures var inside := Obj(j.keys, AttachedAll(j.items, NodeDone(j, inherited), a));
            && Lookup(inside, key).Some? == Lookup(j, key).Some?
            && (Lookup(j, key).Some? ==>
                  Shaped(Lookup(j, key).value)
                  && Lookup(inside, key) == Some(Attached(Lookup(j, key).value, NodeDone(j, inherited), a)))
  {
  }

  /**
   Attaching writes downloadUrl and thumbnailUrl of finished nodes only, each from
   its own field or its own answers; every other field holds its attached value.
   */
  lemma AttachedFields(j: Json, inherited: bool, a: Answers, url: string, key: string)
    requires Shaped(j) && j.Obj?
    ensures Finished(j, inherited) && UrlIs(j, "fifeUrl", "downloadUrl", a.videos, url) ==>
              Lookup(Attached(j, inherited, a), "downloadUrl") == Some(Text(url))
    ensures Finished(j, inherited) && UrlIs(j, "thumbnailUrl", "thumbnailUrl", a.thumbnails, url) ==>
              Lookup(Attached(j, inherited, a), "thumbnailUrl") == Some(Text(url))
    ensures !Finished(j, inherited)
            || (key == "downloadUrl" && forall u :: !UrlIs(j, "fifeUrl", "downloadUrl", a.videos, u))
            || (key == "thumbnailUrl" && forall u :: !UrlIs(j, "thumbnailUrl", "thumbnailUrl", a.thumbnails, u))
            || key !in {"downloadUrl", "thumbnailUrl"} ==>
              if Lookup(j, key).None? then Lookup(Attached(j, inherited, a), key).None?
              else Shaped(Lookup(j, key).value)
                   && Lookup(Attached(j, inherited, a), key) == Some(Attached(Lookup(j, key).value, Inner(j, inherited), a))
  {
    var inside := Obj(j.keys, AttachedAll(j.items, NodeDone(j, inherited), a));
    assert Attached(j, inherited, a) ==
           if Finished(j, inherited) then WithUrls(inside, VideoUrl(j, a), ThumbnailUrl(j, a)) else inside;
    ChildLookup(j, inherited, a, key);
    UrlIsExactly(j, a, url);
    hide Lookup, Attached, AttachedAll, WithUrls, UrlIs, VideoUrl, ThumbnailUrl, Finished, NodeDone;
    WithUrlsLookup(inside, VideoUrl(j, a), ThumbnailUrl(j, a));
    AssignedLookupBoth(inside, VideoUrl(j, a), ThumbnailUrl(j, a), key);
    if VideoUrl(j, a).Some? { UrlIsExactly(j, a, VideoUrl(j, a).value); }
    if ThumbnailUrl(j, a).Some? { UrlIsExactly(j, a, ThumbnailUrl(j, a).value); }
  }
}
