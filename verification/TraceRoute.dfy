/** Traceroute along a line of swbusds, under every interleaving of their workers
    (crates/swbus-core/src/mux/conn_worker.rs, nexthop.rs). */
module TraceRoute {
  import opened Wrappers
  import opened ServicePaths
  import opened Messages
  import opened RouteTable
  import opened Routing
  import opened ConnWorker

  // ----------------------------------------------------------------- the line

  predicate GoesTo(r: Router, p: ServicePath, conn: ConnInfo) {
    var key := Lookup(r.routes, p);
    key.Some? && r.routes[key.value].RemoteHop? && r.routes[key.value].conn == conn
  }

  /** Router `i` reaches the destination over `next[i]` and the source over `back[i]`. */
  datatype Line = Line(routers: seq<Router>, next: seq<ConnInfo>, back: seq<ConnInfo>, src: ServicePath)

  function Dst(line: Line): ServicePath
    requires line.routers != []
  {
    line.routers[|line.routers| - 1].me
  }

  predicate ValidLine(line: Line) {
    var n := |line.routers|;
    && 1 <= n <= 63 && |line.next| == n - 1 && |line.back| == n
    && (forall i :: 0 <= i < n ==> GoesTo(line.routers[i], line.src, line.back[i]))
    && (forall i :: 0 <= i < n - 1 ==>
          && GoesTo(line.routers[i], Dst(line), line.next[i])
          && line.routers[i].me != Dst(line) && line.next[i] != line.back[i])
  }

  // ------------------------------------------------------------------- states

  /** A response on its way back, with the index of the swbusd that made it. */
  datatype Tagged = Tagged(message: Message, maker: nat)

  /** `fwd[i]` is the queue into router `i`, `back[i]` the queue from router `i` towards the source. */
  datatype LineState = LineState(fwd: seq<seq<Message>>, back: seq<seq<Tagged>>, inbox: seq<Tagged>)

  datatype Event = TakeForward(i: nat, id: nat) | TakeBack(i: nat, id: nat)

  predicate Shaped(line: Line, st: LineState) {
    |st.fwd| == |st.back| == |line.routers| && ValidLine(line)
  }

  function Dispatch(line: Line, st: LineState, i: nat, tag: nat, e: Emission): (st': LineState)
    requires Shaped(line, st) && i < |line.routers|
    ensures Shaped(line, st')
  {
    if e.conn == line.back[i] then st.(back := st.back[i := st.back[i] + [Tagged(e.message, tag)]])
    else if i + 1 < |line.routers| && e.conn == line.next[i]
    then st.(fwd := st.fwd[i + 1 := st.fwd[i + 1] + [e.message]])
    else st
  }

  function DispatchAll(line: Line, st: LineState, i: nat, tag: nat, es: seq<Emission>): (st': LineState)
    requires Shaped(line, st) && i < |line.routers|
    ensures Shaped(line, st')
    decreases |es|
  {
    if es == [] then st else DispatchAll(line, Dispatch(line, st, i, tag, es[0]), i, tag, es[1..])
  }

  lemma DispatchOne(line: Line, st: LineState, i: nat, tag: nat, es: seq<Emission>)
    requires Shaped(line, st) && i < |line.routers| && |es| == 1
    ensures DispatchAll(line, st, i, tag, es) == Dispatch(line, st, i, tag, es[0])
  {
  }

  lemma DispatchTwo(line: Line, st: LineState, i: nat, tag: nat, es: seq<Emission>)
    requires Shaped(line, st) && i < |line.routers| && |es| == 2
    ensures DispatchAll(line, st, i, tag, es) == Dispatch(line, Dispatch(line, st, i, tag, es[0]), i, tag, es[1])
  {
    DispatchOne(line, Dispatch(line, st, i, tag, es[0]), i, tag, es[1..]);
  }

  predicate Enabled(line: Line, st: LineState, ev: Event)
    requires Shaped(line, st)
  {
    match ev
    case TakeForward(i, _) => i < |st.fwd| && st.fwd[i] != []
    case TakeBack(i, _) => i < |st.back| && st.back[i] != []
  }

  function Step(line: Line, st: LineState, ev: Event): (st': LineState)
    requires Shaped(line, st) && Enabled(line, st, ev)
    ensures Shaped(line, st')
  {
    match ev
    case TakeForward(i, id) =>
      var m, st1 := st.fwd[i][0], st.(fwd := st.fwd[i := st.fwd[i][1..]]);
      DispatchAll(line, st1, i, i, Process(line.routers[i], m, id))
    case TakeBack(i, id) =>
      var x, st1 := st.back[i][0], st.(back := st.back[i := st.back[i][1..]]);
      if i == 0 then st1.(inbox := st1.inbox + [x])
      else DispatchAll(line, st1, i - 1, x.maker, Process(line.routers[i - 1], x.message, id))
  }

  // --------------------------------------------------- what one router does

  predicate IsRequest(line: Line, m: Message)
    requires ValidLine(line)
  {
    m.body.TraceRouteRequest? && m.header.source == line.src && m.header.destination == Dst(line) && m.header.ttl >= 1
  }

  /** A response to the request, made by router `i`, as it leaves that router. */
  predicate IsAnswer(line: Line, req: Message, i: nat, m: Message, code: ErrorCode)
    requires i < |line.routers|
  {
    && m.body.Response? && m.body.code == code && m.body.requestId == req.header.id
    && m.header.source == line.routers[i].me && m.header.destination == line.src
    && m.header.ttl == INITIAL_TTL - 1
  }

  lemma RemoteRoute(r: Router, m: Message, id: nat, conn: ConnInfo)
    requires GoesTo(r, m.header.destination, conn) && m.header.ttl >= 2
    ensures Emitted(r, m, id) == [Emission(conn, m.(header := m.header.(ttl := m.header.ttl - 1)), true)]
  {
    assert EndsWithin(r, m, id, 4);
  }

  lemma AnswerAt(line: Line, i: nat, m: Message, id: nat)
    requires ValidLine(line) && i < |line.routers| && IsRequest(line, m)
    ensures var es := Answered(line.routers[i], m, id);
            && |es| == 1 && es[0].conn == line.back[i] && IsAnswer(line, m, i, es[0].message, Ok)
    ensures EndsWithin(line.routers[i], TraceResponse(line.routers[i], m, id), id + 1, 4)
  {
    var r := line.routers[i];
    RemoteRoute(r, TraceResponse(r, m, id), id + 1, line.back[i]);
  }

  lemma ExpiryAt(line: Line, i: nat, m: Message, id: nat)
    requires ValidLine(line) && i < |line.routers| - 1 && IsRequest(line, m) && m.header.ttl == 1
    ensures var es := Emitted(line.routers[i], m, id);
            && |es| == 1 && es[0].conn == line.back[i] && IsAnswer(line, m, i, es[0].message, Unreachable)
  {
    var r := line.routers[i];
    var m' := m.(header := m.header.(ttl := 0));
    var response := NewResponse(m', Some(r.me), Unreachable, id, None);
    assert RouteOnce(r, m, id) == Reply(response);
    assert RouteOnce(r, response, id + 1).Queued?;
    assert EndsWithin(r, response, id + 1, 3);
    assert Final(r, m, id, 4) == Final(r, response, id + 1, 3);
  }

  /** Every swbusd answers; all but the last pass the request on or report that its TTL has run out. */
  lemma RequestAt(line: Line, i: nat, m: Message, id: nat)
    requires ValidLine(line) && i < |line.routers| && IsRequest(line, m)
    ensures var es := Process(line.routers[i], m, id);
            && |es| == (if i == |line.routers| - 1 then 1 else 2)
            && es[0].conn == line.back[i] && IsAnswer(line, m, i, es[0].message, Ok)
            && (|es| == 2 && m.header.ttl == 1 ==>
                  es[1].conn == line.back[i] && IsAnswer(line, m, i, es[1].message, Unreachable))
            && (|es| == 2 && m.header.ttl >= 2 ==>
                  es[1].conn == line.next[i] && es[1].message == m.(header := m.header.(ttl := m.header.ttl - 1)))
  {
    var r := line.routers[i];
    AnswerAt(line, i, m, id);
    if i < |line.routers| - 1 {
      var id' := id + 1 + Drawn(r, TraceResponse(r, m, id), id + 1, 4);
      if m.header.ttl == 1 {
        ExpiryAt(line, i, m, id');
      } else {
        RemoteRoute(r, m, id', line.next[i]);
      }
    }
  }

  // --------------------------------------------------- queues read as one

  function Flat<T>(qs: seq<seq<T>>): seq<T> {
    if qs == [] then [] else qs[0] + Flat(qs[1..])
  }

  lemma {:induction false} FlatConcat<T>(a: seq<seq<T>>, b: seq<seq<T>>)
    ensures Flat(a + b) == Flat(a) + Flat(b)
  {
    if a == [] {
      assert a + b == b;
    } else {
      assert (a + b)[0] == a[0] && (a + b)[1..] == a[1..] + b;
      FlatConcat(a[1..], b);
    }
  }

  lemma FlatAt<T>(qs: seq<seq<T>>, j: nat)
    requires j < |qs|
    ensures Flat(qs) == Flat(qs[..j]) + qs[j] + Flat(qs[j + 1..])
  {
    assert qs == qs[..j] + qs[j..];
    FlatConcat(qs[..j], qs[j..]);
    assert qs[j..][0] == qs[j] && qs[j..][1..] == qs[j + 1..];
  }

  lemma {:induction false} FlatEmpty<T>(qs: seq<seq<T>>)
    requires forall k :: 0 <= k < |qs| ==> qs[k] == []
    ensures Flat(qs) == []
  {
    if qs != [] {
      FlatEmpty(qs[1..]);
    }
  }

  /** Pushing on the last non-empty queue adds at the end of the whole. */
  lemma FlatPush<T>(qs: seq<seq<T>>, j: nat, x: T)
    requires j < |qs| && forall k :: j < k < |qs| ==> qs[k] == []
    ensures Flat(qs[j := qs[j] + [x]]) == Flat(qs) + [x]
  {
    var qs' := qs[j := qs[j] + [x]];
    FlatAt(qs, j);
    FlatAt(qs', j);
    FlatEmpty(qs[j + 1..]);
    assert qs'[..j] == qs[..j] && qs'[j + 1..] == qs[j + 1..];
    calc {
      Flat(qs');
      Flat(qs[..j]) + (qs[j] + [x]) + [];
      (Flat(qs[..j]) + qs[j] + []) + [x];
    }
  }

  lemma FlatTwo<T>(a: seq<seq<T>>, p: seq<T>, q: seq<T>, b: seq<seq<T>>)
    ensures Flat(a + [p, q] + b) == Flat(a) + (p + q) + Flat(b)
  {
    FlatConcat(a + [p, q], b);
    FlatConcat(a, [p, q]);
    assert [p, q][1..] == [q] && [q][1..] == [];
    assert Flat([q]) == q + [] == q && Flat([p, q]) == p + Flat([q]);
  }

  /** Taking the head of a queue and adding it to the queue in front changes nothing. */
  lemma FlatMove<T>(qs: seq<seq<T>>, j: nat)
    requires 1 <= j < |qs| && qs[j] != []
    ensures Flat(qs[j := qs[j][1..]][j - 1 := qs[j - 1] + [qs[j][0]]]) == Flat(qs)
  {
    var p, q, a, b := qs[j - 1], qs[j], qs[..j - 1], qs[j + 1..];
    assert qs == a + [p, q] + b;
    assert qs[j := q[1..]][j - 1 := p + [q[0]]] == a + [p + [q[0]], q[1..]] + b;
    assert p + q == (p + [q[0]]) + q[1..];
    FlatTwo(a, p, q, b);
    FlatTwo(a, p + [q[0]], q[1..], b);
  }

  lemma FlatPop<T>(qs: seq<seq<T>>)
    requires qs != [] && qs[0] != []
    ensures [qs[0][0]] + Flat(qs[0 := qs[0][1..]]) == Flat(qs)
  {
    assert qs[0 := qs[0][1..]][1..] == qs[1..];
    assert qs[0] == [qs[0][0]] + qs[0][1..];
  }

  // ------------------------------------------------------- work still to do

  function Load<T>(qs: seq<seq<T>>, weight: nat): nat {
    if qs == [] then 0 else weight * |qs[0]| + Load(qs[1..], weight + 1)
  }

  lemma {:induction false} LoadSet<T>(qs: seq<seq<T>>, weight: nat, j: nat, q: seq<T>)
    requires j < |qs|
    ensures Load(qs[j := q], weight) + (weight + j) * |qs[j]| == Load(qs, weight) + (weight + j) * |q|
  {
    if j == 0 {
      assert qs[j := q][1..] == qs[1..];
    } else {
      assert qs[j := q][1..] == qs[1..][j - 1 := q];
      LoadSet(qs[1..], weight + 1, j - 1, q);
    }
  }

  lemma LoadGrow<T>(qs: seq<seq<T>>, j: nat, x: T)
    requires j < |qs|
    ensures Load(qs[j := qs[j] + [x]], 1) == Load(qs, 1) + 1 + j
  {
    LoadSet(qs, 1, j, qs[j] + [x]);
    assert (1 + j) * (|qs[j]| + 1) == (1 + j) * |qs[j]| + (1 + j);
  }

  lemma LoadShrink<T>(qs: seq<seq<T>>, j: nat)
    requires j < |qs| && qs[j] != []
    ensures Load(qs[j := qs[j][1..]], 1) + 1 + j == Load(qs, 1)
  {
    LoadSet(qs, 1, j, qs[j][1..]);
    assert (1 + j) * |qs[j]| == (1 + j) * |qs[j][1..]| + (1 + j);
  }

  // ---------------------------------------------------------- the invariant

  function Aged(req: Message, k: nat): Message
    requires k <= req.header.ttl
  {
    req.(header := req.header.(ttl := req.header.ttl - k))
  }

  /** A response waiting on `back[j]` was made at or beyond router `j`, has been counted down once for
      every hop since, and answers the request. */
  predicate GoodReply(line: Line, req: Message, x: Tagged, j: nat)
    requires ValidLine(line)
  {
    && j <= x.maker < |line.routers|
    && x.message.header.ttl + x.maker - j + 1 == INITIAL_TTL
    && x.message.body.Response?
    && IsAnswer(line, req, x.maker, x.message.(header := x.message.header.(ttl := INITIAL_TTL - 1)),
                x.message.body.code)
  }

  function Key(x: Tagged): (nat, ErrorCode) {
    (x.maker, if x.message.body.Response? then x.message.body.code else UnknownError)
  }

  function Keys(xs: seq<Tagged>): (ks: seq<(nat, ErrorCode)>)
    ensures |ks| == |xs| && forall i :: 0 <= i < |xs| ==> ks[i] == Key(xs[i])
  {
    seq(|xs|, i requires 0 <= i < |xs| => Key(xs[i]))
  }

  /** An Ok from each of the first `k` swbusds in hop order, then, if the TTL ran out, one Unreachable. */
  function Expected(k: nat, expired: bool): seq<(nat, ErrorCode)> {
    seq(k, i => (i, Ok)) + (if expired && k > 0 then [(k - 1, Unreachable)] else [])
  }

  /** `k` swbusds have handled the request; while `pending` it waits in front of swbusd `k`. */
  ghost predicate Inv(line: Line, st: LineState, req: Message, k: nat, pending: bool)
    requires Shaped(line, st) && IsRequest(line, req)
  {
    var n, t := |line.routers|, req.header.ttl;
    && k <= n && k <= t
    && (if pending then k < n && k < t && st.fwd[k] == [Aged(req, k)] else k == (if t < n then t else n))
    && (forall i :: 0 <= i < n && (pending ==> i != k) ==> st.fwd[i] == [])
    && Keys(st.inbox + Flat(st.back)) == Expected(k, !pending && t < n)
    && (forall j, x :: 0 <= j < n && x in st.back[j] ==> GoodReply(line, req, x, j) && x.maker < k)
    && (forall x :: x in st.inbox ==> GoodReply(line, req, x, 0))
  }

  function Initial(line: Line, req: Message): (st: LineState)
    requires ValidLine(line)
    ensures Shaped(line, st)
  {
    var n := |line.routers|;
    LineState(seq(n, i => if i == 0 then [req] else []), seq(n, i => []), [])
  }

  /** Nothing waits on any queue. */
  predicate Quiet(st: LineState) {
    (forall q :: q in st.fwd ==> q == []) && (forall q :: q in st.back ==> q == [])
  }

  function Cost(n: nat, k: nat, pending: bool): nat
    requires k <= n
  {
    if pending then (n - k) * (2 * n + 1) else 0
  }

  function Work(line: Line, st: LineState, k: nat, pending: bool): nat
    requires k <= |line.routers|
  {
    Load(st.back, 1) + Cost(|line.routers|, k, pending)
  }

  lemma {:induction false} LoadNone<T>(qs: seq<seq<T>>, weight: nat)
    requires forall i :: 0 <= i < |qs| ==> qs[i] == []
    ensures Load(qs, weight) == 0
  {
    if qs != [] {
      LoadNone(qs[1..], weight + 1);
    }
  }

  lemma InitialInv(line: Line, req: Message)
    requires ValidLine(line) && IsRequest(line, req)
    ensures Inv(line, Initial(line, req), req, 0, true)
    ensures Work(line, Initial(line, req), 0, true) == |line.routers| * (2 * |line.routers| + 1)
  {
    var st := Initial(line, req);
    FlatEmpty(st.back);
    LoadNone(st.back, 1);
    assert Aged(req, 0) == req;
  }

  lemma KeysAppend(xs: seq<Tagged>, x: Tagged)
    ensures Keys(xs + [x]) == Keys(xs) + [Key(x)]
  {
  }

  /** A response delivered to the source. */
  lemma InboxInv(line: Line, st: LineState, req: Message, k: nat, pending: bool, id: nat)
    requires Shaped(line, st) && IsRequest(line, req) && Inv(line, st, req, k, pending)
    requires st.back[0] != []
    ensures Inv(line, Step(line, st, TakeBack(0, id)), req, k, pending)
    ensures Work(line, Step(line, st, TakeBack(0, id)), k, pending) < Work(line, st, k, pending)
  {
    var st' := Step(line, st, TakeBack(0, id));
    var x := st.back[0][0];
    FlatPop(st.back);
    LoadShrink(st.back, 0);
    assert st'.inbox + Flat(st'.back) == st.inbox + Flat(st.back) by {
      assert st.inbox + ([x] + Flat(st'.back)) == (st.inbox + [x]) + Flat(st'.back);
    }
    assert x in st.back[0];
  }

  function Counted(x: Tagged): Tagged
    requires x.message.header.ttl >= 1
  {
    x.(message := x.message.(header := x.message.header.(ttl := x.message.header.ttl - 1)))
  }

  function MovedBack(st: LineState, j: nat, y: Tagged): LineState
    requires 1 <= j < |st.back| && st.back[j] != []
  {
    st.(back := st.back[j := st.back[j][1..]][j - 1 := st.back[j - 1] + [y]])
  }

  /** A router counts a response down and passes it one hop back. */
  lemma BackTaken(line: Line, st: LineState, req: Message, j: nat, id: nat)
    requires Shaped(line, st) && 1 <= j < |st.back| && st.back[j] != [] && GoodReply(line, req, st.back[j][0], j)
    ensures st.back[j][0].message.header.ttl >= 2
    ensures Step(line, st, TakeBack(j, id)) == MovedBack(st, j, Counted(st.back[j][0]))
  {
    var x := st.back[j][0];
    RemoteRoute(line.routers[j - 1], x.message, id, line.back[j - 1]);
    var es := Process(line.routers[j - 1], x.message, id);
    var st1 := st.(back := st.back[j := st.back[j][1..]]);
    DispatchOne(line, st1, j - 1, x.maker, es);
  }

  lemma MovedReplies(line: Line, st: LineState, req: Message, k: nat, pending: bool, j: nat)
    requires Shaped(line, st) && IsRequest(line, req) && Inv(line, st, req, k, pending)
    requires 1 <= j < |st.back| && st.back[j] != [] && st.back[j][0].message.header.ttl >= 2
    ensures var st' := MovedBack(st, j, Counted(st.back[j][0]));
            forall i, z :: 0 <= i < |line.routers| && z in st'.back[i] ==> GoodReply(line, req, z, i) && z.maker < k
  {
    var x := st.back[j][0];
    assert x in st.back[j];
    var y := Counted(x);
    var st' := MovedBack(st, j, y);
    assert GoodReply(line, req, y, j - 1);
    forall i, z | 0 <= i < |line.routers| && z in st'.back[i] ensures GoodReply(line, req, z, i) && z.maker < k {
      if i == j - 1 && z !in st.back[i] {
        assert z == y;
      } else {
        assert z in st.back[i];
      }
    }
  }

  lemma BackInv(line: Line, st: LineState, req: Message, k: nat, pending: bool, j: nat, id: nat)
    requires Shaped(line, st) && IsRequest(line, req) && Inv(line, st, req, k, pending)
    requires 1 <= j < |st.back| && st.back[j] != []
    ensures Inv(line, Step(line, st, TakeBack(j, id)), req, k, pending)
    ensures Work(line, Step(line, st, TakeBack(j, id)), k, pending) < Work(line, st, k, pending)
  {
    var x := st.back[j][0];
    assert x in st.back[j];
    BackTaken(line, st, req, j, id);
    var y := Counted(x);
    var st' := MovedBack(st, j, y);
    LoadShrink(st.back, j);
    LoadGrow(st.back[j := st.back[j][1..]], j - 1, y);
    BackKeys(st.back, j, y);
    KeysConcat(st.inbox, Flat(st.back));
    KeysConcat(st'.inbox, Flat(st'.back));
    MovedReplies(line, st, req, k, pending, j);
  }

  lemma KeysConcat(a: seq<Tagged>, b: seq<Tagged>)
    ensures Keys(a + b) == Keys(a) + Keys(b)
  {
  }

  lemma {:induction false} KeysFlat(qs: seq<seq<Tagged>>, qs': seq<seq<Tagged>>)
    requires |qs| == |qs'| && forall i :: 0 <= i < |qs| ==> Keys(qs[i]) == Keys(qs'[i])
    ensures Keys(Flat(qs)) == Keys(Flat(qs'))
  {
    if qs != [] {
      KeysFlat(qs[1..], qs'[1..]);
      KeysConcat(qs[0], Flat(qs[1..]));
      KeysConcat(qs'[0], Flat(qs'[1..]));
    }
  }

  lemma BackKeys(qs: seq<seq<Tagged>>, j: nat, y: Tagged)
    requires 1 <= j < |qs| && qs[j] != [] && Key(y) == Key(qs[j][0])
    ensures Keys(Flat(qs[j := qs[j][1..]][j - 1 := qs[j - 1] + [y]])) == Keys(Flat(qs))
  {
    FlatMove(qs, j);
    var x := qs[j][0];
    KeysAppend(qs[j - 1], x);
    KeysAppend(qs[j - 1], y);
    KeysFlat(qs[j := qs[j][1..]][j - 1 := qs[j - 1] + [y]], qs[j := qs[j][1..]][j - 1 := qs[j - 1] + [x]]);
  }

  /** The state after router `k` has taken the request and put its own Ok on the way back. */
  lemma OkQueued(line: Line, st: LineState, req: Message, k: nat, ok: Tagged)
    requires Shaped(line, st) && IsRequest(line, req) && Inv(line, st, req, k, true)
    requires ok.maker == k && IsAnswer(line, req, k, ok.message, Ok)
    ensures var back := st.back[k := st.back[k] + [ok]];
            && Keys(st.inbox + Flat(back)) == Expected(k + 1, false)
            && Load(back, 1) == Load(st.back, 1) + k + 1
            && (forall j, x :: 0 <= j < |back| && x in back[j] ==> GoodReply(line, req, x, j) && x.maker < k + 1)
  {
    var back := st.back[k := st.back[k] + [ok]];
    Beyond(line, st, req, k);
    FlatPush(st.back, k, ok);
    LoadGrow(st.back, k, ok);
    assert st.inbox + Flat(back) == (st.inbox + Flat(st.back)) + [ok];
    KeysAppend(st.inbox + Flat(st.back), ok);
    assert Expected(k + 1, false) == Expected(k, false) + [(k, Ok)];
    forall j, x | 0 <= j < |back| && x in back[j] ensures GoodReply(line, req, x, j) && x.maker < k + 1 {
      if x !in st.back[j] {
        assert x == ok;
      }
    }
  }

  lemma Beyond(line: Line, st: LineState, req: Message, k: nat)
    requires Shaped(line, st) && IsRequest(line, req) && Inv(line, st, req, k, true)
    ensures forall j :: k <= j < |st.back| ==> st.back[j] == []
  {
    forall j | k <= j < |st.back| ensures st.back[j] == [] {
      assert forall x :: x in st.back[j] ==> GoodReply(line, req, x, j) && x.maker < k;
      SomethingIn(st.back[j]);
    }
  }

  lemma SomethingIn<T>(q: seq<T>)
    ensures q == [] || exists x :: x in q
  {
    if q != [] {
      assert q[0] in q;
    }
  }

  /** Router `k` has popped the request and queued its Ok. */
  function Answering(line: Line, st: LineState, k: nat, ok: Tagged): (st': LineState)
    requires Shaped(line, st) && k < |line.routers|
    ensures Shaped(line, st')
  {
    st.(fwd := st.fwd[k := []], back := st.back[k := st.back[k] + [ok]])
  }

  lemma ForwardTaken(line: Line, st: LineState, req: Message, k: nat, id: nat)
    returns (es: seq<Emission>, st2: LineState)
    requires Shaped(line, st) && IsRequest(line, req) && Inv(line, st, req, k, true)
    ensures es == Process(line.routers[k], Aged(req, k), id) && 1 <= |es| <= 2
    ensures st2 == Answering(line, st, k, Tagged(es[0].message, k))
    ensures Step(line, st, TakeForward(k, id)) == if |es| == 1 then st2 else Dispatch(line, st2, k, k, es[1])
  {
    var m := Aged(req, k);
    es := Process(line.routers[k], m, id);
    RequestAt(line, k, m, id);
    var st1 := st.(fwd := st.fwd[k := []]);
    assert st.fwd[k][1..] == [];
    st2 := Answering(line, st, k, Tagged(es[0].message, k));
    assert st2 == Dispatch(line, st1, k, k, es[0]);
    if |es| == 1 {
      DispatchOne(line, st1, k, k, es);
    } else {
      DispatchTwo(line, st1, k, k, es);
    }
  }

  lemma LastAnswers(line: Line, st: LineState, req: Message, k: nat, ok: Tagged)
    requires Shaped(line, st) && IsRequest(line, req) && Inv(line, st, req, k, true) && k == |line.routers| - 1
    requires ok.maker == k && IsAnswer(line, req, k, ok.message, Ok)
    ensures Inv(line, Answering(line, st, k, ok), req, k + 1, false)
  {
    OkQueued(line, st, req, k, ok);
  }

  lemma PassesOn(line: Line, st: LineState, req: Message, k: nat, ok: Tagged)
    requires Shaped(line, st) && IsRequest(line, req) && Inv(line, st, req, k, true) && k < |line.routers| - 1
    requires ok.maker == k && IsAnswer(line, req, k, ok.message, Ok) && k + 2 <= req.header.ttl
    ensures var st2 := Answering(line, st, k, ok);
            Inv(line, st2.(fwd := st2.fwd[k + 1 := [Aged(req, k + 1)]]), req, k + 1, true)
  {
    OkQueued(line, st, req, k, ok);
  }

  lemma Expires(line: Line, st: LineState, req: Message, k: nat, ok: Tagged, gone: Tagged)
    requires Shaped(line, st) && IsRequest(line, req) && Inv(line, st, req, k, true) && k < |line.routers| - 1
    requires ok.maker == k && IsAnswer(line, req, k, ok.message, Ok) && k + 1 == req.header.ttl
    requires gone.maker == k && IsAnswer(line, req, k, gone.message, Unreachable)
    ensures var st2 := Answering(line, st, k, ok);
            var st' := st2.(back := st2.back[k := st2.back[k] + [gone]]);
            Inv(line, st', req, k + 1, false) && Load(st'.back, 1) == Load(st.back, 1) + 2 * (k + 1)
  {
    var st2 := Answering(line, st, k, ok);
    var st' := st2.(back := st2.back[k := st2.back[k] + [gone]]);
    OkQueued(line, st, req, k, ok);
    Beyond(line, st, req, k);
    FlatPush(st2.back, k, gone);
    LoadGrow(st2.back, k, gone);
    assert st'.inbox + Flat(st'.back) == (st2.inbox + Flat(st2.back)) + [gone];
    KeysAppend(st2.inbox + Flat(st2.back), gone);
    assert Expected(k + 1, true) == Expected(k + 1, false) + [(k, Unreachable)];
    forall j, x | 0 <= j < |line.routers| && x in st'.back[j] ensures GoodReply(line, req, x, j) && x.maker < k + 1 {
      if x !in st2.back[j] {
        assert x == gone;
      }
    }
  }

  /** Router `k` takes the request: it answers, then passes it on, reports expiry, or is its destination. */
  lemma RequestInv(line: Line, st: LineState, req: Message, k: nat, id: nat) returns (k': nat, pending': bool)
    requires Shaped(line, st) && IsRequest(line, req) && Inv(line, st, req, k, true)
    ensures k' <= |line.routers|
    ensures Inv(line, Step(line, st, TakeForward(k, id)), req, k', pending')
    ensures Work(line, Step(line, st, TakeForward(k, id)), k', pending') < Work(line, st, k, true)
  {
    var es, st2 := ForwardTaken(line, st, req, k, id);
    var m, ok := Aged(req, k), Tagged(es[0].message, k);
    RequestAt(line, k, m, id);
    LoadGrow(st.back, k, ok);
    CostDrop(|line.routers|, k);
    k' := k + 1;
    if |es| == 1 {
      pending' := false;
      LastAnswers(line, st, req, k, ok);
    } else if m.header.ttl >= 2 {
      pending' := true;
      assert st2.fwd[k + 1] + [es[1].message] == [Aged(req, k + 1)];
      PassesOn(line, st, req, k, ok);
    } else {
      pending' := false;
      Expires(line, st, req, k, ok, Tagged(es[1].message, k));
    }
  }

  lemma CostDrop(n: nat, k: nat)
    requires k < n
    ensures Cost(n, k + 1, true) + 2 * n + 1 == Cost(n, k, true)
    ensures Cost(n, k, true) >= 2 * n + 1
  {
    assert (n - k) * (2 * n + 1) == (n - k - 1) * (2 * n + 1) + (2 * n + 1);
    assert (n - k - 1) * (2 * n + 1) >= 0;
  }

  lemma StepInv(line: Line, st: LineState, req: Message, k: nat, pending: bool, ev: Event)
    returns (k': nat, pending': bool)
    requires Shaped(line, st) && IsRequest(line, req) && Inv(line, st, req, k, pending) && Enabled(line, st, ev)
    ensures k' <= |line.routers| && Inv(line, Step(line, st, ev), req, k', pending')
    ensures Work(line, Step(line, st, ev), k', pending') < Work(line, st, k, pending)
  {
    match ev
    case TakeForward(i, id) =>
      assert pending && i == k;
      k', pending' := RequestInv(line, st, req, k, id);
    case TakeBack(i, id) =>
      k', pending' := k, pending;
      if i == 0 {
        InboxInv(line, st, req, k, pending, id);
      } else {
        BackInv(line, st, req, k, pending, i, id);
      }
  }

  // ------------------------------------------------------------ every run

  predicate IsRun(line: Line, st: LineState, events: seq<Event>)
    requires Shaped(line, st)
    decreases |events|
  {
    events == [] || (Enabled(line, st, events[0]) && IsRun(line, Step(line, st, events[0]), events[1..]))
  }

  function After(line: Line, st: LineState, events: seq<Event>): (st': LineState)
    requires Shaped(line, st) && IsRun(line, st, events)
    ensures Shaped(line, st')
    decreases |events|
  {
    if events == [] then st else After(line, Step(line, st, events[0]), events[1..])
  }

  lemma {:induction false} RunInv(line: Line, st: LineState, req: Message, k: nat, pending: bool, events: seq<Event>)
    returns (k': nat, pending': bool)
    requires Shaped(line, st) && IsRequest(line, req) && Inv(line, st, req, k, pending) && IsRun(line, st, events)
    ensures k' <= |line.routers| && Inv(line, After(line, st, events), req, k', pending')
    ensures |events| + Work(line, After(line, st, events), k', pending') <= Work(line, st, k, pending)
    decreases |events|
  {
    if events == [] {
      k', pending' := k, pending;
    } else {
      var k1, pending1 := StepInv(line, st, req, k, pending, events[0]);
      k', pending' := RunInv(line, Step(line, st, events[0]), req, k1, pending1, events[1..]);
    }
  }

  /** What the source has received once a traceroute with TTL `t` over `n` swbusds is over. */
  ghost predicate Complete(line: Line, req: Message, inbox: seq<Tagged>)
    requires ValidLine(line)
  {
    var n, t := |line.routers|, req.header.ttl;
    var oks := if t < n then t else n;
    && |inbox| == oks + (if t < n then 1 else 0)
    && (forall i :: 0 <= i < oks ==> Arrived(line, req, inbox[i], i, Ok))
    && (t < n ==> Arrived(line, req, inbox[oks], t - 1, Unreachable))
  }

  /** The response of swbusd `i` (counted from 0) reached the source with TTL 64 - (i + 1). */
  predicate Arrived(line: Line, req: Message, x: Tagged, i: int, code: ErrorCode) {
    && 0 <= i < |line.routers|
    && x.message.body.Response? && x.message.body.code == code && x.message.body.requestId == req.header.id
    && x.message.header.source == line.routers[i].me && x.message.header.destination == line.src
    && x.message.header.ttl + i + 1 == INITIAL_TTL
  }

  lemma QuietIsComplete(line: Line, st: LineState, req: Message, k: nat, pending: bool)
    requires Shaped(line, st) && IsRequest(line, req) && Inv(line, st, req, k, pending) && Quiet(st)
    ensures Complete(line, req, st.inbox)
  {
    assert forall i :: 0 <= i < |st.fwd| ==> st.fwd[i] in st.fwd;
    forall j | 0 <= j < |st.back| ensures st.back[j] == [] {
      assert st.back[j] in st.back;
    }
    FlatEmpty(st.back);
    assert st.inbox + Flat(st.back) == st.inbox;
    var t, n := req.header.ttl, |line.routers|;
    forall i | 0 <= i < |st.inbox|
      ensures GoodReply(line, req, st.inbox[i], 0) && Key(st.inbox[i]) == Expected(k, t < n)[i]
    {
      assert st.inbox[i] in st.inbox;
    }
  }

  /** Traceroute over any line of at most 63 swbusds, under every interleaving: every run is at most
      n(2n + 1) steps long, and when nothing is left on any queue the source holds one Ok from each
      swbusd in hop order, the i-th with TTL 64 - i; with a TTL t below n, exactly t of them, and then
      one Unreachable from swbusd t. */
  lemma TracerouteReports(line: Line, req: Message, events: seq<Event>)
    requires ValidLine(line) && IsRequest(line, req) && IsRun(line, Initial(line, req), events)
    ensures |events| <= |line.routers| * (2 * |line.routers| + 1)
    ensures Quiet(After(line, Initial(line, req), events)) ==>
              Complete(line, req, After(line, Initial(line, req), events).inbox)
  {
    InitialInv(line, req);
    var k, pending := RunInv(line, Initial(line, req), req, 0, true, events);
    if Quiet(After(line, Initial(line, req), events)) {
      QuietIsComplete(line, After(line, Initial(line, req), events), req, k, pending);
    }
  }

  /** A state that is not quiet has an enabled step, so every run can be continued until it is over. */
  lemma NotQuietGoesOn(line: Line, st: LineState) returns (ev: Event)
    requires Shaped(line, st) && !Quiet(st)
    ensures Enabled(line, st, ev)
  {
    if i :| 0 <= i < |st.fwd| && st.fwd[i] != [] {
      ev := TakeForward(i, 0);
    } else {
      var i :| 0 <= i < |st.back| && st.back[i] != [];
      ev := TakeBack(i, 0);
    }
  }

  // ------------------------------------------------------------ lines of every length

  function NodeAt(i: nat): ServicePath { ServicePath("r", "c", seq(i + 1, _ => 'n'), "", "", "", "") }

  const SOURCE := ServicePath("r", "c", "s", "", "", "", "")

  function Over(id: string, p: ServicePath): ConnInfo { ConnInfo(id, ClientMode, "", Cluster, None, p) }

  lemma NodesApart(i: nat, j: nat)
    ensures SeparatorFree(NodeAt(i)) && SeparatorFree(SOURCE) && !SameNode(NodeAt(i), SOURCE)
    ensures SameNode(NodeAt(i), NodeAt(j)) ==> i == j
  {
    assert NodeAt(i).nodeId[0] == 'n' && SOURCE.nodeId[0] == 's';
    assert |NodeAt(i).nodeId| == i + 1 && |NodeAt(j).nodeId| == j + 1;
  }

  /** A table with one connection registered for the source and one for the destination. */
  function Between(i: nat, n: nat): Router
    requires n > 0
  {
    Router(RegisterConn(RegisterConn(map[], Over("back", SOURCE)), Over("next", NodeAt(n - 1))), NodeAt(i), true)
  }

  lemma BetweenGoes(i: nat, n: nat)
    requires n > 0
    ensures GoesTo(Between(i, n), SOURCE, Over("back", SOURCE))
    ensures GoesTo(Between(i, n), NodeAt(n - 1), Over("next", NodeAt(n - 1)))
  {
    var dst := NodeAt(n - 1);
    NodesApart(n - 1, n - 1);
    forall ct ensures RouteKey(ct, SOURCE) in Between(i, n).routes ==> ct == Cluster
      ensures RouteKey(ct, dst) in Between(i, n).routes ==> ct == Cluster
    {
      RouteKeyInjective(ct, SOURCE, Cluster, SOURCE);
      RouteKeyInjective(ct, SOURCE, Cluster, dst);
      RouteKeyInjective(ct, dst, Cluster, SOURCE);
      RouteKeyInjective(ct, dst, Cluster, dst);
    }
    RouteKeyInjective(Cluster, SOURCE, Cluster, dst);
    LookupOnly(Between(i, n).routes, SOURCE);
    LookupOnly(Between(i, n).routes, dst);
  }

  /** Lines of every length up to 63 exist, made of registered connections alone. */
  lemma LineOfLength(n: nat) returns (line: Line)
    requires 1 <= n <= 63
    ensures |line.routers| == n && ValidLine(line)
  {
    line := Line(seq(n, i requires 0 <= i < n => Between(i, n)), seq(n - 1, i => Over("next", NodeAt(n - 1))),
                 seq(n, i => Over("back", SOURCE)), SOURCE);
    forall i | 0 <= i < n ensures GoesTo(line.routers[i], SOURCE, line.back[i]) {
      BetweenGoes(i, n);
    }
    forall i | 0 <= i < n - 1
      ensures GoesTo(line.routers[i], Dst(line), line.next[i])
      ensures line.routers[i].me != Dst(line) && line.next[i] != line.back[i]
    {
      BetweenGoes(i, n);
      NodesApart(i, n - 1);
      assert "next"[0] == 'n' && "back"[0] == 'b';
    }
  }
}
