/** The loops of the section 6.3 procedure write exactly the insertions that
    build their input, in order. */
module PunycodeEncoding {
  import opened Arithmetic
  import opened Sequences
  import opened Wrappers
  import opened Punycode
  import opened PunycodeEncoder
  import opened PunycodeInsertions

  /** What the decoder has built when the encoder looks at u[j] for n. */
  ghost function Done(u: seq<Scalar>, n: nat, j: nat): seq<Scalar>
    requires j <= |u|
  {
    Below(u[..j], n + 1) + Below(u[j..], n)
  }

  ghost predicate Ahead(s: State, n: nat, position: nat, delta: nat) {
    && n >= s.codePoint
    && delta + s.insertion == (n - s.codePoint) * (|s.output| + 1) + position
  }

  /** The encoder has written exactly the insertions ps. */
  ghost predicate Wrote(basic: seq<Scalar>, p: Progress, ps: seq<Point>) {
    && Valid(basic, ps)
    && p.handled == |basic| + |ps|
    && p.bias == Run(basic, ps).bias
    && p.output == Prefix(basic) + Render(basic, ps)
  }

  /** The encoder is at u[j] for n and has written the insertions ps. */
  ghost predicate Moment(u: seq<Scalar>, n: nat, j: nat, p: Progress, ps: seq<Point>)
    requires j <= |u|
  {
    var basic := Below(u, 128);
    && Wrote(basic, p, ps)
    && Run(basic, ps).output == Done(u, n, j)
    && Ahead(Run(basic, ps), n, |Below(u[..j], n + 1)|, p.delta)
  }

  lemma TakeMore(u: seq<Scalar>, j: nat)
    requires j < |u|
    ensures u[..j + 1] == u[..j] + [u[j]] && u[j..] == [u[j]] + u[j + 1..]
  {
  }

  lemma BelowHead(x: Scalar, b: seq<Scalar>, n: nat)
    ensures Below([x] + b, n) == if x < n then [x] + Below(b, n) else Below(b, n)
  {
    BelowConcat([x], b, n);
    BelowSnoc([], x, n);
    EmptyEnds([x]);
    EmptyEnds(Below(b, n));
  }

  lemma DoneSteps(u: seq<Scalar>, n: nat, j: nat)
    requires j < |u|
    ensures u[j] != n ==> Done(u, n, j + 1) == Done(u, n, j)
    ensures u[j] == n ==> Done(u, n, j + 1) == InsertAt(Done(u, n, j), |Below(u[..j], n + 1)|, n)
    ensures |Below(u[..j + 1], n + 1)| == |Below(u[..j], n + 1)| + if u[j] <= n then 1 else 0
  {
    TakeMore(u, j);
    DonePieces(u[..j], u[j], u[j + 1..], n);
  }

  lemma DonePieces(left: seq<Scalar>, c: Scalar, right: seq<Scalar>, n: nat)
    ensures var a, b := Below(left, n + 1), Below([c] + right, n);
            var a', b' := Below(left + [c], n + 1), Below(right, n);
            && (c != n ==> a' + b' == a + b)
            && (c == n ==> a' + b' == InsertAt(a + b, |a|, n))
            && |a'| == |a| + if c <= n then 1 else 0
  {
    var a, b := Below(left, n + 1), Below(right, n);
    BelowSnoc(left, c, n + 1);
    BelowHead(c, right, n);
    Associative(a, [c], b);
    SplicePoint(a, b, c);
  }

  lemma SplicePoint(a: seq<Scalar>, b: seq<Scalar>, c: Scalar)
    ensures InsertAt(a + b, |a|, c) == (a + [c]) + b
  {
    assert (a + b)[..|a|] == a && (a + b)[|a|..] == b;
  }

  lemma PassSmaller(u: seq<Scalar>, n: nat, j: nat, p: Progress, ps: seq<Point>)
    requires j < |u| && u[j] < n && Moment(u, n, j, p, ps)
    ensures Moment(u, n, j + 1, p.(delta := p.delta + 1), ps)
  {
    DoneSteps(u, n, j);
  }

  lemma PassLarger(u: seq<Scalar>, n: nat, j: nat, p: Progress, ps: seq<Point>)
    requires j < |u| && u[j] > n && Moment(u, n, j, p, ps)
    ensures Moment(u, n, j + 1, p, ps)
  {
    DoneSteps(u, n, j);
  }

  lemma AheadIsNext(s: State, n: nat, position: nat, delta: nat) returns (e: Point)
    requires IsScalar(n) && position <= |s.output| && s.insertion <= |s.output| && Ahead(s, n, position, delta)
    ensures e == Point(n, position) && Follows(s, e) && Delta(s, e) == delta
    ensures Ahead(Insert(s, e), n, position + 1, 0)
  {
    e := Point(n, position);
  }

  function Handle(p: Progress, basic: nat): Progress {
    Progress(0, Bootstring.Adapt(p.delta, p.handled + 1, p.handled == basic), p.handled + 1,
             p.output + EncodeInteger(p.delta, 36, p.bias))
  }

  lemma HandleWrites(basic: seq<Scalar>, p: Progress, ps: seq<Point>, e: Point)
    requires Wrote(basic, p, ps) && e.codePoint >= 128
    requires Follows(Run(basic, ps), e) && p.delta == Delta(Run(basic, ps), e)
    ensures Wrote(basic, Handle(p, |basic|), ps + [e])
    ensures Run(basic, ps + [e]) == Insert(Run(basic, ps), e)
  {
    var s := Run(basic, ps);
    Snoc(basic, ps, e);
    HandleAppends(p, Prefix(basic), Render(basic, ps), EncodeInteger(p.delta, 36, p.bias), |basic|);
    FirstInsertion(basic, ps);
    InsertBias(s, e, p.delta, p.handled + 1, p.handled == |basic|);
  }

  /** Insertion index 0 means exactly that nothing was inserted yet. */
  lemma FirstInsertion(basic: seq<Scalar>, ps: seq<Point>)
    requires Valid(basic, ps)
    ensures Run(basic, ps).insertion == 0 <==> ps == []
  {
  }

  lemma InsertBias(s: State, e: Point, delta: nat, points: nat, first: bool)
    requires Follows(s, e) && delta == Delta(s, e) && points == |s.output| + 1
    requires first <==> s.insertion == 0
    ensures Insert(s, e).bias == Bootstring.Adapt(delta, points, first)
  {
    AdaptAgrees(delta, points, first);
  }

  lemma HandleAppends(p: Progress, a: seq<Scalar>, b: seq<Scalar>, c: seq<Scalar>, basic: nat)
    requires p.output == a + b && c == EncodeInteger(p.delta, 36, p.bias)
    ensures Handle(p, basic).output == a + (b + c)
  {
    Associative(a, b, c);
  }

  lemma PassEqual(u: seq<Scalar>, n: nat, j: nat, p: Progress, ps: seq<Point>) returns (e: Point)
    requires j < |u| && u[j] == n && n >= 128 && Moment(u, n, j, p, ps)
    ensures Moment(u, n, j + 1, Handle(p, |Below(u, 128)|), ps + [e])
  {
    DoneSteps(u, n, j);
    e := AheadIsNext(Run(Below(u, 128), ps), u[j], |Below(u[..j], n + 1)|, p.delta);
    HandleWrites(Below(u, 128), p, ps, e);
  }

  lemma {:induction false} RoundCorrect(u: seq<Scalar>, j: nat, n: nat, p: Progress, ps: seq<Point>) returns (qs: seq<Point>)
    requires j <= |u| && n >= 128 && Moment(u, n, j, p, ps)
    ensures Moment(u, n, |u|, EncodeRound(u, j, n, |Below(u, 128)|, p), qs)
    decreases |u| - j
  {
    if j == |u| {
      qs := ps;
    } else if u[j] < n {
      PassSmaller(u, n, j, p, ps);
      qs := RoundCorrect(u, j + 1, n, p.(delta := p.delta + 1), ps);
    } else if u[j] == n {
      var e := PassEqual(u, n, j, p, ps);
      qs := RoundCorrect(u, j + 1, n, Handle(p, |Below(u, 128)|), ps + [e]);
    } else {
      PassLarger(u, n, j, p, ps);
      qs := RoundCorrect(u, j + 1, n, p, ps);
    }
  }

  lemma AheadSkips(s: State, n: nat, m: nat, delta: nat)
    requires n <= m && Ahead(s, n, 0, delta)
    ensures Ahead(s, m, 0, delta + Skip(n, m, |s.output|))
  {
    Distribute(n - s.codePoint, m - n, |s.output| + 1);
  }

  lemma AheadWraps(s: State, n: nat, delta: nat)
    requires Ahead(s, n, |s.output|, delta)
    ensures Ahead(s, n + 1, 0, delta + 1)
  {
    Distribute(n - s.codePoint, 1, |s.output| + 1);
  }

  lemma DoneAtEnds(u: seq<Scalar>, n: nat)
    ensures Done(u, n, 0) == Below(u, n) && Below(u[..0], n + 1) == []
    ensures Done(u, n, |u|) == Below(u, n + 1) && u[..|u|] == u
  {
    WholeSlices(u);
    EmptyEnds(Below(u, n));
    EmptyEnds(Below(u, n + 1));
  }

  /** A moment before the first element, without the slices. */
  lemma AtStart(u: seq<Scalar>, n: nat, p: Progress, ps: seq<Point>)
    ensures var basic := Below(u, 128);
            Moment(u, n, 0, p, ps) <==>
              Wrote(basic, p, ps) && Run(basic, ps).output == Below(u, n) && Ahead(Run(basic, ps), n, 0, p.delta)
  {
    DoneAtEnds(u, n);
  }

  lemma SkipsToNext(u: seq<Scalar>, n: nat, m: nat, p: Progress, ps: seq<Point>)
    requires n <= m && Moment(u, n, 0, p, ps)
    requires forall i :: 0 <= i < |u| && u[i] >= n ==> m <= u[i]
    ensures Moment(u, m, 0, p.(delta := p.delta + Skip(n, m, p.handled)), ps)
  {
    AtStart(u, n, p, ps);
    BelowNone(u, n, m);
    AheadSkips(Run(Below(u, 128), ps), n, m, p.delta);
    AtStart(u, m, p.(delta := p.delta + Skip(n, m, p.handled)), ps);
  }

  lemma EndsRound(u: seq<Scalar>, n: nat, p: Progress, ps: seq<Point>)
    requires Moment(u, n, |u|, p, ps)
    ensures Moment(u, n + 1, 0, p.(delta := p.delta + 1), ps)
  {
    DoneAtEnds(u, n);
    DoneAtEnds(u, n + 1);
    AheadWraps(Run(Below(u, 128), ps), n, p.delta);
  }

  lemma AllDone(u: seq<Scalar>, n: nat, p: Progress, ps: seq<Point>)
    requires Moment(u, n, 0, p, ps) && (p.handled >= |u| || MinAtLeast(u, n).None?)
    ensures Run(Below(u, 128), ps).output == u
  {
    DoneAtEnds(u, n);
    if MinAtLeast(u, n).None? {
      BelowAll(u, n);
    } else {
      BelowFull(u, n);
    }
  }

  lemma {:induction false} BelowFull(u: seq<Scalar>, n: nat)
    requires |Below(u, n)| >= |u|
    ensures Below(u, n) == u
    decreases |u|
  {
    if u != [] {
      BelowFull(u[..|u| - 1], n);
    }
  }

  lemma LoopStep(u: seq<Scalar>, n: nat, basic: nat, p: Progress, m: Scalar)
    requires p.handled < |u| && MinAtLeast(u, n) == Some(m)
    ensures n <= m < 0x110000
    ensures EncodeLoop(u, n, basic, p) == EncodeLoop(u, m + 1, basic, WholeRound(u, n, m, basic, p))
  {
  }

  /** A whole round leads to the moment before the next one. */
  lemma RoundAdvances(u: seq<Scalar>, n: nat, m: nat, p: Progress, ps: seq<Point>) returns (qs: seq<Point>)
    requires 128 <= n <= m && Moment(u, n, 0, p, ps)
    requires forall i :: 0 <= i < |u| && u[i] >= n ==> m <= u[i]
    ensures Moment(u, m + 1, 0, WholeRound(u, n, m, |Below(u, 128)|, p), qs)
  {
    SkipsToNext(u, n, m, p, ps);
    var skipped := p.(delta := p.delta + Skip(n, m, p.handled));
    qs := RoundCorrect(u, 0, m, skipped, ps);
    EndsRound(u, m, EncodeRound(u, 0, m, |Below(u, 128)|, skipped), qs);
  }

  lemma OneRound(u: seq<Scalar>, n: nat, p: Progress, ps: seq<Point>) returns (m: nat, q: Progress, qs: seq<Point>)
    requires n >= 128 && Moment(u, n, 0, p, ps) && p.handled < |u| && MinAtLeast(u, n).Some?
    ensures n <= m < 0x110000 && Moment(u, m + 1, 0, q, qs)
    ensures EncodeLoop(u, n, |Below(u, 128)|, p) == EncodeLoop(u, m + 1, |Below(u, 128)|, q)
  {
    m := MinAtLeast(u, n).value;
    LoopStep(u, n, |Below(u, 128)|, p, m);
    q := WholeRound(u, n, m, |Below(u, 128)|, p);
    qs := RoundAdvances(u, n, m, p, ps);
  }

  /** From n on the loop writes the insertions qs, which build u. */
  ghost predicate LoopWrites(u: seq<Scalar>, basic: seq<Scalar>, written: seq<Scalar>, qs: seq<Point>) {
    Valid(basic, qs) && Run(basic, qs).output == u && written == Prefix(basic) + Render(basic, qs)
  }

  lemma LoopEnds(u: seq<Scalar>, n: nat, p: Progress, ps: seq<Point>)
    requires Moment(u, n, 0, p, ps) && (p.handled >= |u| || MinAtLeast(u, n).None?)
    ensures LoopWrites(u, Below(u, 128), EncodeLoop(u, n, |Below(u, 128)|, p), ps)
  {
    AllDone(u, n, p, ps);
  }

  lemma {:induction false} LoopCorrect(u: seq<Scalar>, n: nat, p: Progress, ps: seq<Point>) returns (qs: seq<Point>)
    requires n >= 128 && Moment(u, n, 0, p, ps)
    ensures LoopWrites(u, Below(u, 128), EncodeLoop(u, n, |Below(u, 128)|, p), qs)
    decreases 0x110000 - n
  {
    if p.handled >= |u| || MinAtLeast(u, n).None? {
      LoopEnds(u, n, p, ps);
      qs := ps;
    } else {
      var m, q, rs := OneRound(u, n, p, ps);
      qs := LoopCorrect(u, m + 1, q, rs);
    }
  }

  lemma FirstMoment(u: seq<Scalar>)
    ensures var basic := Below(u, 128);
            Moment(u, 128, 0, Progress(0, 72, |basic|, Prefix(basic)), [])
  {
    DoneAtEnds(u, 128);
    FirstWrote(Below(u, 128));
    FirstAhead(Below(u, 128));
  }

  lemma FirstWrote(basic: seq<Scalar>)
    requires forall i :: 0 <= i < |basic| ==> basic[i] < 128
    ensures Wrote(basic, Progress(0, 72, |basic|, Prefix(basic)), [])
  {
    EmptyEnds(Prefix(basic));
  }

  lemma FirstAhead(basic: seq<Scalar>)
    ensures Ahead(Start(basic), 128, 0, 0)
  {
    ProductMonotone(0, 0, |basic| + 1);
  }

  /** Section 6.3 writes the basic code points, a delimiter after them, and the
      insertions of the rest in (code point, position) order. */
  lemma EncodeRenders(u: seq<Scalar>)
    ensures Valid(Below(u, 128), Insertions(u))
    ensures Encode(u) == Prefix(Below(u, 128)) + Render(Below(u, 128), Insertions(u))
  {
    var basic := Below(u, 128);
    FirstMoment(u);
    var qs := LoopCorrect(u, 128, Progress(0, 72, |basic|, Prefix(basic)), []);
    InsertionsUnique(basic, qs);
  }
}
