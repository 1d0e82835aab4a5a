/** What Endpoint.get_all computes, stated over the outcomes the server
    gives to its successive GET requests: the pages are read in order,
    each page's data is appended, and the walk stops at the first page
    whose next is None or at the first exception. */
module Paging {
  import opened JsonValues
  import opened Responses

  /** What get_all collects: the list it returns, or the exception that
      ends it (the list built so far is then lost). */
  datatype Paged = Collected(items: seq<Json>) | Aborted(failure: Failure)

  /** What one call of get_all's loop does with the result of self.get. */
  datatype Step = Stop(failure: Failure) | Last(items: seq<Json>) | More(items: seq<Json>, next: Json)

  /** list.extend(v): the elements iterating over `v` yields, or None when
      `v` is not iterable. A dict yields its keys, a string its characters. */
  function Items(v: Json): (r: Option<seq<Json>>)
    ensures r.None? <==> v.JNull? || v.JBool? || v.JNum?
    ensures v.JArr? ==> r == Some(v.items)
    ensures v.JObj? ==> r == Some(Keys(v.members))
    ensures v.JStr? ==> r.Some? && |r.value| == |v.s|
                        && forall i :: 0 <= i < |v.s| ==> r.value[i] == JStr([v.s[i]])
  {
    match v
    case JArr(items) => Some(items)
    case JObj(members) => Some(Keys(members))
    case JStr(s) => Some(seq(|s|, i requires 0 <= i < |s| => JStr([s[i]])))
    case _ => None
  }

  /** One iteration: extend with response.data, then stop when
      response.next is None and go on with it as the cursor otherwise. */
  function StepOf(o: Outcome): (s: Step)
    ensures o.Failed? ==> s == Stop(o.failure)
    ensures s.Last? || s.More? ==> o.Success? && Items(o.response.data) == Some(s.items)
    ensures s.Last? <==> o.Success? && Items(o.response.data).Some? && o.response.next == JNull
    ensures s.More? <==> o.Success? && Items(o.response.data).Some? && o.response.next != JNull
    ensures s.More? ==> s.next == o.response.next
  {
    match o
    case Failed(f) => Stop(f)
    case Success(r) =>
      (match Items(r.data)
       case None => Stop(Crashed(NotIterable))
       case Some(xs) => if r.next == JNull then Last(xs) else More(xs, r.next))
    // response.data on None or on a returned error object
    case _ => Stop(Crashed(MissingAttribute))
  }

  /** The step get_all takes on the result of its j-th call of self.get. */
  function StepAt(outcomes: seq<Outcome>, j: nat): Step
    requires j < |outcomes|
  {
    StepOf(outcomes[j])
  }

  /** The cursor a step passes on, None when it passes none. */
  function Cursor(s: Step): Json
  {
    if s.More? then s.next else JNull
  }

  /** The keyword arguments of the j-th GET: the caller's own for the first
      call, with "start" set to the previous page's next for every later one. */
  function CallParams(kwargs: Params, outcomes: seq<Outcome>, j: nat): (p: Params)
    requires j <= |outcomes|
    ensures j == 0 ==> p == kwargs
    ensures j > 0 ==> p.Keys == kwargs.Keys + {"start"} && p["start"] == Cursor(StepAt(outcomes, j - 1))
    ensures forall k :: k in kwargs && k != "start" ==> p[k] == kwargs[k]
  {
    if j == 0 then kwargs else kwargs["start" := Cursor(StepAt(outcomes, j - 1))]
  }

  /** The result of get_all, how many requests it made, and the outcomes it
      left unread. */
  datatype Pages = Pages(result: Paged, calls: nat, rest: seq<Outcome>)

  /** Puts one page's items in front of what the following pages give. */
  function Prefix(xs: seq<Json>, p: Paged): (r: Paged)
    ensures p.Aborted? ==> r == p
    ensures p.Collected? ==> r == Collected(xs + p.items)
  {
    match p
    case Collected(ys) => Collected(xs + ys)
    case Aborted(f) => p
  }

  /** get_all against a server answering with `outcomes` in turn; a request
      made after the last reply fails in the transport. */
  function Paginate(outcomes: seq<Outcome>): (r: Pages)
    ensures 1 <= r.calls <= |outcomes| + 1
    ensures |r.rest| == if r.calls <= |outcomes| then |outcomes| - r.calls else 0
    decreases |outcomes|
  {
    if outcomes == [] then Pages(Aborted(Crashed(TransportFailed)), 1, [])
    else
      match StepAt(outcomes, 0)
      case Stop(f) => Pages(Aborted(f), 1, outcomes[1..])
      case Last(xs) => Pages(Collected(xs), 1, outcomes[1..])
      case More(xs, _) =>
        var tail := Paginate(outcomes[1..]);
        Pages(Prefix(xs, tail.result), tail.calls + 1, tail.rest)
  }

  /** What get_all leaves unread is a suffix of the outcomes. */
  lemma {:induction false} PaginateRest(outcomes: seq<Outcome>)
    ensures var r := Paginate(outcomes).rest; r == outcomes[|outcomes| - |r|..]
    decreases |outcomes|
  {
    if outcomes != [] && StepAt(outcomes, 0).More? {
      PaginateRest(outcomes[1..]);
      var r := Paginate(outcomes[1..]).rest;
      assert outcomes[1..][|outcomes| - 1 - |r|..] == outcomes[|outcomes| - |r|..];
    }
  }

  /** The items of the first n steps, in order. */
  function Gathered(outcomes: seq<Outcome>, n: nat): seq<Json>
    requires n <= |outcomes|
    decreases n
  {
    if n == 0 then []
    else
      var s := StepAt(outcomes, 0);
      (if s.Stop? then [] else s.items) + Gathered(outcomes[1..], n - 1)
  }

  /** When get_all returns a list, it read exactly `calls` outcomes: every
      page before the last had a next, the last had none, and the list is
      the concatenation of their data in call order. */
  lemma {:induction false} CollectedPages(outcomes: seq<Outcome>)
    requires Paginate(outcomes).result.Collected?
    ensures var p := Paginate(outcomes);
      && p.calls <= |outcomes|
      && p.rest == outcomes[p.calls..]
      && (forall j :: 0 <= j < p.calls - 1 ==> StepAt(outcomes, j).More?)
      && StepAt(outcomes, p.calls - 1).Last?
      && p.result.items == Gathered(outcomes, p.calls)
    decreases |outcomes|
  {
    var p := Paginate(outcomes);
    assert outcomes != [];
    var s := StepAt(outcomes, 0);
    if s.Last? {
      assert p == Pages(Collected(s.items), 1, outcomes[1..]);
      assert Gathered(outcomes, 1) == s.items + Gathered(outcomes[1..], 0);
      assert s.items + [] == s.items;
    } else {
      assert s.More?;
      var tail := Paginate(outcomes[1..]);
      assert p == Pages(Prefix(s.items, tail.result), tail.calls + 1, tail.rest);
      CollectedPages(outcomes[1..]);
      forall j | 0 <= j < p.calls - 1 ensures StepAt(outcomes, j).More? {
        if j > 0 {
          assert StepAt(outcomes, j) == StepAt(outcomes[1..], j - 1);
        }
      }
      assert StepAt(outcomes, p.calls - 1) == StepAt(outcomes[1..], tail.calls - 1);
      assert outcomes[1..][tail.calls..] == outcomes[p.calls..];
      assert Gathered(outcomes, p.calls) == s.items + Gathered(outcomes[1..], tail.calls);
    }
  }

  /** Conversely, when the first n - 1 pages have a next and page n has
      none, get_all makes exactly n requests and returns their data. */
  lemma {:induction false} StopsAtFirstLastPage(outcomes: seq<Outcome>, n: nat)
    requires 1 <= n <= |outcomes|
    requires forall j :: 0 <= j < n - 1 ==> StepAt(outcomes, j).More?
    requires StepAt(outcomes, n - 1).Last?
    ensures Paginate(outcomes) == Pages(Collected(Gathered(outcomes, n)), n, outcomes[n..])
    decreases n
  {
    if n > 1 {
      forall j | 0 <= j < n - 2 ensures StepAt(outcomes[1..], j).More? {
        assert StepAt(outcomes[1..], j) == StepAt(outcomes, j + 1);
      }
      assert StepAt(outcomes[1..], n - 2) == StepAt(outcomes, n - 1);
      StopsAtFirstLastPage(outcomes[1..], n - 1);
      assert outcomes[1..][n - 1..] == outcomes[n..];
      var s := StepAt(outcomes, 0);
      assert s.More?;
      var tail := Paginate(outcomes[1..]);
      assert Paginate(outcomes) == Pages(Prefix(s.items, tail.result), tail.calls + 1, tail.rest);
      assert Gathered(outcomes, n) == s.items + Gathered(outcomes[1..], n - 1);
    } else {
      var s := StepAt(outcomes, 0);
      assert Paginate(outcomes) == Pages(Collected(s.items), 1, outcomes[1..]);
      assert Gathered(outcomes, 1) == s.items + Gathered(outcomes[1..], 0);
      assert s.items + [] == s.items;
    }
  }

  /** Gathering one step more appends that step's items. */
  lemma {:induction false} GatheredNext(outcomes: seq<Outcome>, k: nat)
    requires k < |outcomes|
    ensures var s := StepAt(outcomes, k);
      Gathered(outcomes, k + 1) == Gathered(outcomes, k) + (if s.Stop? then [] else s.items)
    decreases k
  {
    var s0 := StepAt(outcomes, 0);
    var head := if s0.Stop? then [] else s0.items;
    if k == 0 {
      assert Gathered(outcomes, 1) == head + Gathered(outcomes[1..], 0);
      assert head + [] == head;
    } else {
      GatheredNext(outcomes[1..], k - 1);
      assert StepAt(outcomes[1..], k - 1) == StepAt(outcomes, k);
      assert Gathered(outcomes, k + 1) == head + Gathered(outcomes[1..], k);
      assert Gathered(outcomes, k) == head + Gathered(outcomes[1..], k - 1);
    }
  }

  /** After k pages that all had a next, get_all goes on exactly as it
      would from the (k+1)-th result, with the k pages' items in front:
      the invariant of its loop. */
  lemma {:induction false} PaginateAfter(outcomes: seq<Outcome>, k: nat)
    requires k <= |outcomes|
    requires forall j :: 0 <= j < k ==> StepAt(outcomes, j).More?
    ensures var t := Paginate(outcomes[k..]);
      Paginate(outcomes) == Pages(Prefix(Gathered(outcomes, k), t.result), k + t.calls, t.rest)
    decreases k
  {
    var t := Paginate(outcomes[k..]);
    if k == 0 {
      assert outcomes[0..] == outcomes;
      PrefixJoin([], [], t.result);
    } else {
      forall j | 0 <= j < k - 1 ensures StepAt(outcomes[1..], j).More? {
        assert StepAt(outcomes[1..], j) == StepAt(outcomes, j + 1);
      }
      PaginateAfter(outcomes[1..], k - 1);
      assert outcomes[1..][k - 1..] == outcomes[k..];
      var s := StepAt(outcomes, 0);
      assert s.More?;
      assert Gathered(outcomes, k) == s.items + Gathered(outcomes[1..], k - 1);
      PrefixJoin(s.items, Gathered(outcomes[1..], k - 1), t.result);
    }
  }

  /** How get_all ends when its (k+1)-th call, after k pages with a next,
      finds no reply, fails, or reads the last page. */
  lemma PaginateStep(outcomes: seq<Outcome>, k: nat)
    requires k <= |outcomes|
    requires forall j :: 0 <= j < k ==> StepAt(outcomes, j).More?
    ensures k == |outcomes| ==>
      Paginate(outcomes) == Pages(Aborted(Crashed(TransportFailed)), k + 1, [])
    ensures k < |outcomes| && StepAt(outcomes, k).Stop? ==>
      Paginate(outcomes) == Pages(Aborted(StepAt(outcomes, k).failure), k + 1, outcomes[k + 1..])
    ensures k < |outcomes| && StepAt(outcomes, k).Last? ==>
      Paginate(outcomes)
        == Pages(Collected(Gathered(outcomes, k) + StepAt(outcomes, k).items), k + 1, outcomes[k + 1..])
  {
    PaginateAfter(outcomes, k);
    var rest := outcomes[k..];
    if k < |outcomes| {
      assert StepAt(rest, 0) == StepAt(outcomes, k);
      assert rest[1..] == outcomes[k + 1..];
    } else {
      assert rest == [];
    }
  }

  /** Putting two lists in front one after the other is putting their
      concatenation in front. */
  lemma PrefixJoin(xs: seq<Json>, ys: seq<Json>, p: Paged)
    ensures Prefix(xs, Prefix(ys, p)) == Prefix(xs + ys, p)
    ensures Prefix([], p) == p
  {
    if p.Collected? {
      assert xs + (ys + p.items) == (xs + ys) + p.items;
      assert [] + p.items == p.items;
    }
  }

  /** The results of the successive calls of self.get, for a server
      answering the GETs with `replies` in turn. */
  function Outcomes(replies: seq<Reply>, loads: Loads): (r: seq<Outcome>)
    ensures |r| == |replies|
    decreases |replies|, 1
  {
    if replies == [] then [] else OutcomesFrom(replies, loads)
  }

  /** The results for a server with at least one reply left: what
      handle_response makes of the first, then the results for the rest. */
  function OutcomesFrom(replies: seq<Reply>, loads: Loads): (r: seq<Outcome>)
    requires replies != []
    ensures |r| == |replies|
    decreases |replies|, 0
  {
    [HandleResponse(GET, replies[0], loads)] + Outcomes(replies[1..], loads)
  }

  /** The j-th result is what handle_response makes of the j-th reply. */
  lemma {:induction false} OutcomeAt(replies: seq<Reply>, loads: Loads, j: nat)
    requires j < |replies|
    ensures Outcomes(replies, loads)[j] == HandleResponse(GET, replies[j], loads)
    decreases j
  {
    assert Outcomes(replies, loads) == OutcomesFrom(replies, loads);
    if j > 0 {
      OutcomeAt(replies[1..], loads, j - 1);
    }
  }

  /** A success envelope as the server writes it. */
  function OkBody(data: seq<Json>, next: Json): Json
  {
    JObj([("status", JStr("OK")),
          ("response", JObj([("data", JArr(data)), ("next", next), ("count", JNum(|data|))]))])
  }

  /** What self.get returns for a 200 reply carrying an ok envelope. */
  lemma OkBodyOutcome(reply: Reply, loads: Loads, data: seq<Json>, next: Json)
    requires reply.statusCode == 200
    requires Body(reply.content, loads) == Value(OkBody(data, next))
    ensures HandleResponse(GET, reply, loads) == Success(SignuptoResponse(JArr(data), next, JNum(|data|)))
  {
    var d := OkBody(data, next);
    assert Get(d.members, "status") == Some(JStr("OK"));
    assert LowersTo("OK", "ok");
    var r := JObj([("data", JArr(data)), ("next", next), ("count", JNum(|data|))]);
    assert Get(d.members, "response") == Some(r);
    assert Get(r.members, "data") == Some(JArr(data));
    assert Get(r.members, "next") == Some(next);
    assert r.members[1..][1..] == [("count", JNum(|data|))];
    assert Get(r.members[1..][1..], "count") == Some(JNum(|data|));
    assert Get(r.members[1..], "count") == Get(r.members[1..][1..], "count");
    assert Get(r.members, "count") == Some(JNum(|data|));
    assert IsOkEnvelope(d, SignuptoResponse(JArr(data), next, JNum(|data|)));
    SuccessIsOkEnvelope(GET, reply, loads, SignuptoResponse(JArr(data), next, JNum(|data|)));
  }

  /** The page a successful get gives: its data, and whether it has a next. */
  lemma OkPageStep(data: seq<Json>, next: Json)
    ensures StepOf(Success(SignuptoResponse(JArr(data), next, JNum(|data|))))
         == if next == JNull then Last(data) else More(data, next)
  {
  }

  /** Three pages whose next is "p2", "p3" and then null: three requests,
      the second and third carrying start "p2" and "p3", and the three data
      lists joined in order. */
  lemma ThreePages(outcomes: seq<Outcome>, kwargs: Params,
                   d1: seq<Json>, d2: seq<Json>, d3: seq<Json>)
    requires |outcomes| == 3
    requires outcomes[0] == Success(SignuptoResponse(JArr(d1), JStr("p2"), JNum(|d1|)))
    requires outcomes[1] == Success(SignuptoResponse(JArr(d2), JStr("p3"), JNum(|d2|)))
    requires outcomes[2] == Success(SignuptoResponse(JArr(d3), JNull, JNum(|d3|)))
    ensures Paginate(outcomes) == Pages(Collected(d1 + d2 + d3), 3, [])
    ensures CallParams(kwargs, outcomes, 1) == kwargs["start" := JStr("p2")]
    ensures CallParams(kwargs, outcomes, 2) == kwargs["start" := JStr("p3")]
  {
    OkPageStep(d1, JStr("p2"));
    OkPageStep(d2, JStr("p3"));
    OkPageStep(d3, JNull);
    forall j | 0 <= j < 2 ensures StepAt(outcomes, j).More? {
    }
    StopsAtFirstLastPage(outcomes, 3);
    assert outcomes[3..] == [];
    assert Gathered(outcomes, 3) == d1 + Gathered(outcomes[1..], 2);
    assert Gathered(outcomes[1..], 2) == d2 + Gathered(outcomes[2..], 1);
    assert Gathered(outcomes[2..], 1) == d3 + Gathered(outcomes[3..], 0);
  }

  /** The same three pages as the server sends them: 200 replies carrying
      ok envelopes. */
  lemma {:induction false} ThreeReplies(replies: seq<Reply>, loads: Loads, kwargs: Params,
                     d1: seq<Json>, d2: seq<Json>, d3: seq<Json>)
    requires |replies| == 3
    requires forall j :: 0 <= j < 3 ==> replies[j].statusCode == 200
    requires Body(replies[0].content, loads) == Value(OkBody(d1, JStr("p2")))
    requires Body(replies[1].content, loads) == Value(OkBody(d2, JStr("p3")))
    requires Body(replies[2].content, loads) == Value(OkBody(d3, JNull))
    ensures Paginate(Outcomes(replies, loads)) == Pages(Collected(d1 + d2 + d3), 3, [])
  {
    OkBodyOutcome(replies[0], loads, d1, JStr("p2"));
    OkBodyOutcome(replies[1], loads, d2, JStr("p3"));
    OkBodyOutcome(replies[2], loads, d3, JNull);
    OutcomeAt(replies, loads, 0);
    OutcomeAt(replies, loads, 1);
    OutcomeAt(replies, loads, 2);
    ThreePages(Outcomes(replies, loads), map[], d1, d2, d3);
  }
}
