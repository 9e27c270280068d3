/** The history page: the trend chart, the score change between consecutive
    sessions, the photos of a session, and the compare and expand toggles. The
    session list arrives newest first; dates are opaque timestamps. */
module History {

  import opened Common
  import opened Seqs
  import opened Text

  /** A stored analysis session; every score column is nullable. */
  datatype Session = Session(
    id: string,
    userId: string,
    overall: Option<int>,
    density: Option<int>,
    hairline: Option<int>,
    crown: Option<int>,
    summary: Option<string>,
    notes: Option<string>,
    alert: Option<bool>,
    createdAt: int)

  /** A stored photo of a session. */
  datatype Photo = Photo(id: string, sessionId: string, angle: string, url: string)

  /** The query's order: each session is at least as recent as the next. */
  predicate NewestFirst(sessions: seq<Session>)
  {
    forall i :: 0 <= i < |sessions| - 1 ==> sessions[i].createdAt >= sessions[i + 1].createdAt
  }

  // ---------------------------------------------------------------- chart

  /** A chart point; `date` is the session's timestamp, before formatting. */
  datatype ChartPoint = ChartPoint(date: int, overall: int, density: int, hairline: int, crown: int)

  /** `score ?? 0`. */
  function OrZero(v: Option<int>): (r: int)
    ensures v.Some? ==> r == v.value
    ensures v.None? ==> r == 0
  {
    if v.Some? then v.value else 0
  }

  function Point(s: Session): ChartPoint
  {
    ChartPoint(s.createdAt, OrZero(s.overall), OrZero(s.density), OrZero(s.hairline), OrZero(s.crown))
  }

  /** The reversed list, one point per session. */
  function ChartData(sessions: seq<Session>): (chart: seq<ChartPoint>)
    ensures |chart| == |sessions|
  {
    if sessions == [] then [] else ChartData(sessions[1..]) + [Point(sessions[0])]
  }

  /** Point `k` of the chart is the session `k` places from the end of the
      list, with null scores drawn as 0. */
  lemma {:induction false} ChartDataAt(sessions: seq<Session>, k: nat)
    requires k < |sessions|
    ensures ChartData(sessions)[k] == Point(sessions[|sessions| - 1 - k])
    decreases |sessions|
  {
    if k < |sessions| - 1 {
      ChartDataAt(sessions[1..], k);
    }
  }

  /** A newest-first list gives a chart whose dates never decrease: the oldest
      session is drawn first. */
  lemma ChartOldestFirst(sessions: seq<Session>)
    requires NewestFirst(sessions)
    ensures forall k :: 0 <= k < |sessions| - 1 ==> ChartData(sessions)[k].date <= ChartData(sessions)[k + 1].date
  {
    forall k | 0 <= k < |sessions| - 1
      ensures ChartData(sessions)[k].date <= ChartData(sessions)[k + 1].date
    {
      ChartDataAt(sessions, k);
      ChartDataAt(sessions, k + 1);
    }
  }

  // ---------------------------------------------------------------- score change

  /** The change of the overall score against the next-older session, when
      there is one and both scores are set. */
  function ScoreDiff(sessions: seq<Session>, i: nat): (d: Option<int>)
    requires i < |sessions|
    ensures d.Some? <==> i + 1 < |sessions| && sessions[i].overall.Some? && sessions[i + 1].overall.Some?
    ensures d.Some? ==> d.value + sessions[i + 1].overall.value == sessions[i].overall.value
  {
    if i + 1 < |sessions| && sessions[i].overall.Some? && sessions[i + 1].overall.Some? then
      Some(sessions[i].overall.value - sessions[i + 1].overall.value)
    else None
  }

  function DiffSum(sessions: seq<Session>, i: nat, j: nat): int
    requires i <= j < |sessions|
    requires forall k :: i <= k < j ==> ScoreDiff(sessions, k).Some?
    decreases j - i
  {
    if i == j then 0 else ScoreDiff(sessions, i).value + DiffSum(sessions, i + 1, j)
  }

  /** The changes shown along a run of scored sessions add up to the change
      between its newest and its oldest session. */
  lemma {:induction false} DiffsTelescope(sessions: seq<Session>, i: nat, j: nat)
    requires i <= j < |sessions|
    requires forall k :: i <= k <= j ==> sessions[k].overall.Some?
    ensures forall k :: i <= k < j ==> ScoreDiff(sessions, k).Some?
    ensures DiffSum(sessions, i, j) == sessions[i].overall.value - sessions[j].overall.value
    decreases j - i
  {
    if i < j {
      DiffsTelescope(sessions, i + 1, j);
    }
  }

  /** The badge text: a positive change carries a "+". */
  function DiffText(d: int): string
  {
    (if d > 0 then "+" else "") + IntToString(d)
  }

  /** The badge starts with "+" exactly for a rise and with "-" exactly for a fall. */
  lemma DiffTextSign(d: int)
    ensures StartsWith(DiffText(d), "+") <==> d > 0
    ensures StartsWith(DiffText(d), "-") <==> d < 0
  {
    var t := IntToString(d);
    if d > 0 {
      assert t == NatToString(d) && IsDigit(t[0]);
      assert DiffText(d)[..1] == "+";
    } else if d == 0 {
      assert t == NatToString(0) && IsDigit(t[0]);
      assert DiffText(d) == t;
      assert t[..1] != "-" && t[..1] != "+" by { assert t[..1][0] == t[0]; }
    } else {
      assert DiffText(d) == t == "-" + NatToString(-d);
      assert t[..1] == "-";
    }
  }

  /** The badge reads back as the change it shows. */
  lemma DiffTextRoundTrip(d: int)
    ensures ParseInt(DiffText(d)) == Some(d)
  {
    if d > 0 {
      NatToStringValue(d);
      assert IntToString(d) == NatToString(d);
      ParsePlusDigitString(DiffText(d), NatToString(d));
    } else {
      ParseIntRoundTrip(d);
    }
  }

  // ---------------------------------------------------------------- photos of a session

  /** `getPhotosForSession`: the photos of one session, in stored order. */
  function PhotosForSession(photos: seq<Photo>, id: string): (r: seq<Photo>)
    ensures forall k :: 0 <= k < |r| ==> r[k].sessionId == id && r[k] in photos
    ensures forall k :: 0 <= k < |photos| && photos[k].sessionId == id ==> photos[k] in r
  {
    if photos == [] then []
    else (if photos[0].sessionId == id then [photos[0]] else []) + PhotosForSession(photos[1..], id)
  }

  /** The selection keeps the photos' order. */
  lemma {:induction false} PhotosForSessionOrdered(photos: seq<Photo>, id: string)
    ensures Subsequence(PhotosForSession(photos, id), photos)
    decreases |photos|
  {
    if photos != [] {
      PhotosForSessionOrdered(photos[1..], id);
      var rest := PhotosForSession(photos[1..], id);
      if photos[0].sessionId == id {
        assert PhotosForSession(photos, id) == [photos[0]] + rest;
        assert ([photos[0]] + rest)[1..] == rest;
      } else {
        assert PhotosForSession(photos, id) == rest;
      }
    }
  }

  /** Different sessions share no photo. */
  lemma PhotosForSessionDisjoint(photos: seq<Photo>, a: string, b: string, k: nat)
    requires a != b && k < |photos|
    ensures !(photos[k] in PhotosForSession(photos, a) && photos[k] in PhotosForSession(photos, b))
  {
    if photos[k] in PhotosForSession(photos, a) {
      var r := PhotosForSession(photos, a);
      var i :| 0 <= i < |r| && r[i] == photos[k];
      assert photos[k].sessionId == a;
    }
  }

  // ---------------------------------------------------------------- compare and expand

  /** `sessions.find(s => s.id !== id)`, as an index. */
  function FirstOther(sessions: seq<Session>, id: string): (k: Option<nat>)
    ensures k.Some? ==> k.value < |sessions| && sessions[k.value].id != id
                        && forall j :: 0 <= j < k.value ==> sessions[j].id == id
    ensures k.None? ==> forall j :: 0 <= j < |sessions| ==> sessions[j].id == id
  {
    if sessions == [] then None
    else if sessions[0].id != id then Some(0)
    else
      var rest := FirstOther(sessions[1..], id);
      if rest.Some? then Some(rest.value + 1) else None
  }

  /** A comparison pair. */
  datatype Pair = Pair(first: string, second: string)

  /** `toggleCompare(id)`. */
  function Toggled(pair: Option<Pair>, sessions: seq<Session>, id: string): Option<Pair>
  {
    if pair.None? then
      var k := FirstOther(sessions, id);
      Some(Pair(id, if k.Some? && sessions[k.value].id != "" then sessions[k.value].id else id))
    else if pair.value.first == id || pair.value.second == id then None
    else Some(Pair(pair.value.first, id))
  }

  /** Opening pairs the id with the first other session, or with itself when
      every other session has its id (or an empty one comes first). */
  lemma OpenPair(sessions: seq<Session>, id: string)
    ensures var p := Toggled(None, sessions, id);
      && p.Some? && p.value.first == id
      && (p.value.second != id ==> exists k :: 0 <= k < |sessions| && sessions[k].id == p.value.second)
      && ((forall j :: 0 <= j < |sessions| ==> sessions[j].id == id) ==> p.value.second == id)
    ensures forall k :: 0 <= k < |sessions| && sessions[k].id != id
                        && (forall j :: 0 <= j < k ==> sessions[j].id == id) ==>
      Toggled(None, sessions, id).value.second == (if sessions[k].id != "" then sessions[k].id else id)
  {
    forall k | 0 <= k < |sessions| && sessions[k].id != id && (forall j :: 0 <= j < k ==> sessions[j].id == id)
      ensures Toggled(None, sessions, id).value.second == (if sessions[k].id != "" then sessions[k].id else id)
    {
      var first := FirstOther(sessions, id);
      assert first.Some?;
      assert first.value == k;
    }
  }

  /** Toggling an id of the pair closes the comparison; toggling another id
      keeps the first and swaps in the second. */
  lemma TogglePair(pair: Pair, sessions: seq<Session>, id: string)
    ensures Toggled(Some(pair), sessions, id).None? <==> pair.first == id || pair.second == id
    ensures Toggled(Some(pair), sessions, id).Some? ==> Toggled(Some(pair), sessions, id) == Some(Pair(pair.first, id))
  {
  }

  /** Toggling the same session twice from a closed comparison closes it again. */
  lemma ToggleTwiceCloses(sessions: seq<Session>, id: string)
    ensures Toggled(Toggled(None, sessions, id), sessions, id).None?
  {
  }

  /** Clicking a card expands it, or collapses it when it is the expanded one. */
  function ExpandToggled(expanded: Option<string>, id: string): (r: Option<string>)
    ensures r == Some(id) <==> expanded != Some(id)
    ensures r.None? <==> expanded == Some(id)
  {
    if expanded == Some(id) then None else Some(id)
  }

  /** A second click on the same card restores an expanded card, and a closed
      view ends closed. */
  lemma ExpandTwice(expanded: Option<string>, id: string)
    ensures expanded == Some(id) || expanded.None? ==> ExpandToggled(ExpandToggled(expanded, id), id) == expanded
  {
  }

  /** The page's state: the loaded lists and the two toggles. */
  class HistoryView {
    var sessions: seq<Session>
    var photos: seq<Photo>
    var compare: Option<Pair>
    var expanded: Option<string>

    constructor (sessions: seq<Session>, photos: seq<Photo>)
      ensures this.sessions == sessions && this.photos == photos
      ensures compare.None? && expanded.None?
    {
      this.sessions := sessions;
      this.photos := photos;
      compare := None;
      expanded := None;
    }

    /** The Compare button, shown with two sessions or more. */
    predicate CompareOffered()
      reads this
    {
      |sessions| >= 2 && compare.None?
    }

    /** The Compare button pairs the two newest sessions. */
    method StartCompare()
      requires CompareOffered()
      modifies this
      ensures compare == Some(Pair(old(sessions)[0].id, old(sessions)[1].id))
      ensures sessions == old(sessions) && photos == old(photos) && expanded == old(expanded)
    {
      compare := Some(Pair(sessions[0].id, sessions[1].id));
    }

    method ToggleCompare(id: string)
      modifies this
      ensures compare == Toggled(old(compare), sessions, id)
      ensures sessions == old(sessions) && photos == old(photos) && expanded == old(expanded)
    {
      var next: Option<Pair>;
      if compare.None? {
        var k := FirstOther(sessions, id);
        var other := if k.Some? && sessions[k.value].id != "" then sessions[k.value].id else id;
        next := Some(Pair(id, other));
      } else if compare.value.first == id || compare.value.second == id {
        next := None;
      } else {
        next := Some(Pair(compare.value.first, id));
      }
      compare := next;
    }

    /** The Close button of the comparison card. */
    method CloseCompare()
      modifies this
      ensures compare.None?
      ensures sessions == old(sessions) && photos == old(photos) && expanded == old(expanded)
    {
      compare := None;
    }

    method ToggleExpand(id: string)
      modifies this
      ensures expanded == ExpandToggled(old(expanded), id)
      ensures sessions == old(sessions) && photos == old(photos) && compare == old(compare)
    {
      if expanded == Some(id) {
        expanded := None;
      } else {
        expanded := Some(id);
      }
    }
  }
}
