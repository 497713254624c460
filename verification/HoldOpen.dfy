/** The hold-open body stream, and the expansion of a subscription's parameter
    values into buckets. */
module HoldOpen {
  import opened Common

  type Cursors = map<string, nat>

  /** A chunk source: the cursors it was asked for, its chunks and its final cursors. */
  datatype Source<C> = Source(asked: Cursors, chunks: seq<C>, final: Cursors)

  /** What storage answers to a wait followed by a read from the given cursors. */
  datatype Answer<C> =
    | Quiet
    | Failed
    | Fresh(latest: Cursors, chunks: seq<C>, final: Option<Cursors>)

  function Chunks<C>(sources: seq<Source<C>>): seq<C> {
    if sources == [] then [] else Chunks(sources[..|sources| - 1]) + sources[|sources| - 1].chunks
  }

  /** Each read starts from the final cursors of the read before it. */
  predicate Chained<C(==)>(sources: seq<Source<C>>) {
    forall i | 0 < i < |sources| :: sources[i].asked == sources[i - 1].final
  }

  /** The cursors reached and the sources taken on the way. */
  datatype Progress<C> = Progress(taken: seq<Source<C>>, cursors: Cursors)

  /** One answer: with new cursors it is a source, and the next question starts
      at its final cursors; any other answer changes nothing. */
  function Take<C>(p: Progress<C>, answer: Answer<C>): Progress<C> {
    if !answer.Fresh? || answer.latest == p.cursors then p
    else
      var end := if answer.final.None? then answer.latest else answer.final.value;
      Progress(p.taken + [Source(p.cursors, answer.chunks, end)], end)
  }

  function Onto<C>(earlier: seq<Source<C>>, p: Progress<C>): Progress<C> {
    Progress(earlier + p.taken, p.cursors)
  }

  lemma TakeOnto<C>(earlier: seq<Source<C>>, p: Progress<C>, answer: Answer<C>)
    ensures Take(Onto(earlier, p), answer) == Onto(earlier, Take(p, answer))
  {
    Associates(earlier, p.taken, Take(p, answer).taken[|p.taken|..]);
  }

  /** Storage is asked at each tick from `from` up to `end`. */
  function Polled<C>(serve: (nat, Cursors) -> Answer<C>, cursors: Cursors, from: nat, end: nat): Progress<C>
    requires from <= end
    decreases end
  {
    if from == end then Progress([], cursors) else
      var p := Polled(serve, cursors, from, end - 1);
      Take(p, serve(end - 1, p.cursors))
  }

  /** Storage's answer at a tick, to the cursors asked, was this source: its
      chunks, ending at the final cursors it gave or else at the latest ones. */
  predicate AnsweredAt<C(==)>(serve: (nat, Cursors) -> Answer<C>, tick: nat, source: Source<C>) {
    match serve(tick, source.asked)
    case Fresh(latest, chunks, final) =>
      latest != source.asked && source.chunks == chunks && source.final == (if final.Some? then final.value else latest)
    case _ => false
  }

  /** An answer that brings something new. */
  predicate IsNews<C>(serve: (nat, Cursors) -> Answer<C>, tick: nat, cursors: Cursors) {
    serve(tick, cursors).Fresh? && serve(tick, cursors).latest != cursors
  }

  /** What storage is asked at each tick from `from` on, and which ticks brought
      a source: each source is the answer at its tick and moves the question to
      its final cursors; every other tick brought nothing new. */
  ghost predicate Answers<C>(serve: (nat, Cursors) -> Answer<C>, from: nat, asked: seq<Cursors>, sources: seq<Source<C>>, at: seq<nat>) {
    && |at| == |sources| && (forall i, j | 0 <= i < j < |at| :: at[i] < at[j])
    && SourcesAt(serve, from, asked, sources, at) && NewsTaken(serve, from, asked, at)
  }

  ghost predicate SourcesAt<C>(serve: (nat, Cursors) -> Answer<C>, from: nat, asked: seq<Cursors>, sources: seq<Source<C>>, at: seq<nat>)
    requires |at| == |sources|
  {
    forall i | 0 <= i < |at| ::
      && from <= at[i] < from + |asked| - 1 && AnsweredAt(serve, at[i], sources[i])
      && sources[i].asked == asked[at[i] - from] && sources[i].final == asked[at[i] - from + 1]
  }

  predicate TickTaken<C>(serve: (nat, Cursors) -> Answer<C>, tick: nat, asked: Cursors, next: Cursors, at: seq<nat>) {
    if IsNews(serve, tick, asked) then tick in at else next == asked
  }

  ghost predicate NewsTaken<C>(serve: (nat, Cursors) -> Answer<C>, from: nat, asked: seq<Cursors>, at: seq<nat>) {
    forall n | 0 <= n < |asked| - 1 :: TickTaken(serve, from + n, asked[n], asked[n + 1], at)
  }

  lemma NewsTakenOneMore<C>(serve: (nat, Cursors) -> Answer<C>, from: nat, asked: seq<Cursors>, at: seq<nat>, next: Cursors, at': seq<nat>)
    requires asked != [] && NewsTaken(serve, from, asked, at)
    requires var tick, last := from + |asked| - 1, asked[|asked| - 1];
             if IsNews(serve, tick, last) then at' == at + [tick] else at' == at && next == last
    ensures NewsTaken(serve, from, asked + [next], at')
  {
    var asked' := asked + [next];
    forall n | 0 <= n < |asked'| - 1
      ensures TickTaken(serve, from + n, asked'[n], asked'[n + 1], at')
    {
      if n < |asked| - 1 {
        assert TickTaken(serve, from + n, asked[n], asked[n + 1], at);
      } else if IsNews(serve, from + n, asked'[n]) {
        assert at'[|at|] == from + n;
      }
    }
  }

  lemma SourcesOneMore<C>(serve: (nat, Cursors) -> Answer<C>, from: nat, asked: seq<Cursors>, p: Progress<C>, at: seq<nat>, p': Progress<C>)
    requires asked != [] && asked[|asked| - 1] == p.cursors && |at| == |p.taken| && SourcesAt(serve, from, asked, p.taken, at)
    requires IsNews(serve, from + |asked| - 1, p.cursors) && p' == Take(p, serve(from + |asked| - 1, p.cursors))
    ensures |p'.taken| == |at| + 1 && SourcesAt(serve, from, asked + [p'.cursors], p'.taken, at + [from + |asked| - 1])
  {
  }

  lemma AnswersOneMore<C>(serve: (nat, Cursors) -> Answer<C>, from: nat, asked: seq<Cursors>, p: Progress<C>, at: seq<nat>, p': Progress<C>)
    returns (at': seq<nat>)
    requires asked != [] && Answers(serve, from, asked, p.taken, at) && asked[|asked| - 1] == p.cursors
    requires p' == Take(p, serve(from + |asked| - 1, p.cursors))
    ensures Answers(serve, from, asked + [p'.cursors], p'.taken, at')
  {
    at' := at;
    if IsNews(serve, from + |asked| - 1, p.cursors) {
      at' := at + [from + |asked| - 1];
      SourcesOneMore(serve, from, asked, p, at, p');
    }
    NewsTakenOneMore(serve, from, asked, at, p'.cursors, at');
  }

  /** Sources asked one from where the other ended, from these cursors to those. */
  predicate Leads<C(==)>(sources: seq<Source<C>>, cursors: Cursors, reached: Cursors) {
    && Chained(sources)
    && if sources == [] then reached == cursors else sources[0].asked == cursors && reached == sources[|sources| - 1].final
  }

  /** Every source taken is storage's answer at its tick, each asked from where
      the one before ended; all news is taken and nothing else is. */
  lemma {:induction false} PolledAreAnswers<C>(serve: (nat, Cursors) -> Answer<C>, cursors: Cursors, from: nat, end: nat)
    returns (asked: seq<Cursors>, at: seq<nat>)
    requires from <= end
    ensures |asked| == end - from + 1 && asked[0] == cursors && asked[end - from] == Polled(serve, cursors, from, end).cursors
    ensures Answers(serve, from, asked, Polled(serve, cursors, from, end).taken, at)
    decreases end
  {
    asked, at := [cursors], [];
    if from < end {
      var before, done := PolledAreAnswers(serve, cursors, from, end - 1);
      var p, p' := Polled(serve, cursors, from, end - 1), Polled(serve, cursors, from, end);
      asked := before + [p'.cursors];
      at := AnswersOneMore(serve, from, before, p, done, p');
    }
  }

  lemma {:induction false} PolledLeads<C>(serve: (nat, Cursors) -> Answer<C>, cursors: Cursors, from: nat, end: nat)
    requires from <= end
    ensures Leads(Polled(serve, cursors, from, end).taken, cursors, Polled(serve, cursors, from, end).cursors)
    decreases end
  {
    if from < end {
      PolledLeads(serve, cursors, from, end - 1);
    }
  }

  /** Polling on continues where polling stopped. */
  lemma {:induction false} PolledJoins<C>(serve: (nat, Cursors) -> Answer<C>, cursors: Cursors, from: nat, mid: nat, end: nat)
    requires from <= mid <= end
    ensures var first := Polled(serve, cursors, from, mid);
            var more := Polled(serve, first.cursors, mid, end);
            Polled(serve, cursors, from, end) == Progress(first.taken + more.taken, more.cursors)
    decreases end
  {
    if mid < end {
      PolledJoins(serve, cursors, from, mid, end - 1);
    } else {
      var first := Polled(serve, cursors, from, mid);
      assert first.taken + [] == first.taken;
    }
  }

  class BodyStream<C(==)> {
    const holdOpen: bool
    var cursors: Cursors
    var pending: seq<C>
    var ended: bool
    ghost var sources: seq<Source<C>>
    ghost var sent: seq<C>

    /** Every chunk of every source is sent once, in order, or still pending. */
    ghost predicate Valid()
      reads this
    {
      && sources != [] && Chained(sources) && cursors == sources[|sources| - 1].final
      && sent + pending == Chunks(sources)
    }

    constructor (first: Source<C>, hold: bool)
      ensures Valid() && sources == [first] && sent == [] && holdOpen == hold && !ended
    {
      holdOpen := hold;
      cursors, pending, ended := first.final, first.chunks, false;
      sources, sent := [first], [];
      new;
      assert [first][..0] == [];
    }

    /** The next chunk, waiting at most until tick `limit`; `serve` is storage
        answering at a tick. The sources taken on the way are those of polling
        from the cursors reached so far. Without hold-open the stream ends after
        its first source; it also ends when storage fails. */
    method Next(serve: (nat, Cursors) -> Answer<C>, start: nat, limit: nat) returns (chunk: Option<C>, tick: nat)
      requires Valid() && start <= limit
      modifies this
      ensures Valid() && start <= tick <= limit
      ensures Progress(sources, cursors) == Onto(old(sources), Polled(serve, old(cursors), start, tick))
      ensures chunk.Some? ==> sent == old(sent) + [chunk.value]
      ensures chunk.None? ==> sent == old(sent) && pending == []
      ensures chunk.None? ==> !holdOpen || tick == limit || (tick > start && serve(tick - 1, cursors).Failed?)
      ensures chunk.None? && tick < limit ==> ended
      ensures !holdOpen || old(pending) != [] ==> tick == start
      ensures old(pending) != [] ==> chunk == Some(old(pending)[0]) && pending == old(pending)[1..]
      ensures chunk.Some? && tick == start ==> old(pending) != []
    {
      tick := start;
      if pending == [] && holdOpen {
        tick := Wait(serve, start, limit);
      }
      if pending == [] {
        ended := ended || !holdOpen;
        return None, tick;
      }
      var first := TakePending();
      chunk := Some(first);
    }

    /** Ask storage tick by tick until a source brings chunks, the limit is reached or storage fails. */
    method Wait(serve: (nat, Cursors) -> Answer<C>, start: nat, limit: nat) returns (tick: nat)
      requires Valid() && start <= limit && pending == []
      modifies this`cursors, this`pending, this`sources, this`ended
      ensures Valid() && start <= tick <= limit
      ensures Progress(sources, cursors) == Onto(old(sources), Polled(serve, old(cursors), start, tick))
      ensures pending == [] ==> tick == limit || (tick > start && serve(tick - 1, cursors).Failed?)
      ensures pending != [] ==> tick > start
      ensures pending == [] && tick < limit ==> ended
    {
      tick := start;
      while pending == [] && tick < limit
        invariant Valid() && start <= tick <= limit && (pending != [] ==> tick > start)
        invariant Progress(sources, cursors) == Onto(old(sources), Polled(serve, old(cursors), start, tick))
      {
        var answer := serve(tick, cursors);
        ghost var before := Polled(serve, old(cursors), start, tick);
        TakeOnto(old(sources), before, answer);
        Consider(answer);
        tick := tick + 1;
        assert Polled(serve, old(cursors), start, tick) == Take(before, answer);
        if answer.Failed? {
          ended := true;
          return;
        }
      }
    }

    method TakePending() returns (chunk: C)
      requires Valid() && pending != []
      modifies this`pending, this`sent
      ensures Valid() && chunk == old(pending)[0] && pending == old(pending)[1..] && sent == old(sent) + [chunk]
    {
      chunk := pending[0];
      assert sent + pending == sent + [chunk] + pending[1..];
      sent := sent + [chunk];
      pending := pending[1..];
    }

    /** Take an answer with new cursors as the next source, and continue from where it ends. */
    method Consider(answer: Answer<C>)
      requires Valid() && pending == []
      modifies this`cursors, this`pending, this`sources
      ensures Valid() && Progress(sources, cursors) == Take(Progress(old(sources), old(cursors)), answer)
      ensures !answer.Fresh? ==> pending == []
    {
      match answer {
        case Fresh(latest, chunks, final) =>
          if latest != cursors {
            ghost var asked := cursors;
            cursors := if final.None? then latest else final.value;
            pending := chunks;
            ghost var next := Source(asked, chunks, cursors);
            assert (sources + [next])[..|sources|] == sources;
            assert sent + [] == sent;
            sources := sources + [next];
          }
        case _ =>
      }
    }

    /** Send until the tick limit: together the chunks sent or pending are those
        of the sources before and of storage's answers from consecutive cursors. */
    method Send(serve: (nat, Cursors) -> Answer<C>, start: nat, limit: nat) returns (chunks: seq<C>, tick: nat)
      requires Valid() && start <= limit
      modifies this
      ensures Valid() && start <= tick <= limit && pending == []
      ensures sent == old(sent) + chunks && sent == Chunks(sources)
      ensures sources == old(sources) + Polled(serve, old(cursors), start, tick).taken
      ensures !holdOpen || tick == limit || (tick > start && serve(tick - 1, cursors).Failed?)
    {
      chunks, tick := [], start;
      assert sent + [] == sent;
      var chunk;
      while true
        invariant Valid() && start <= tick <= limit && sent == old(sent) + chunks
        invariant Progress(sources, cursors) == Onto(old(sources), Polled(serve, old(cursors), start, tick))
        decreases limit - tick, |pending|
      {
        ghost var mid, before := tick, cursors;
        chunk, tick := Next(serve, tick, limit);
        PolledJoins(serve, old(cursors), start, mid, tick);
        Associates(old(sources), Polled(serve, old(cursors), start, mid).taken, Polled(serve, before, mid, tick).taken);
        if chunk.None? {
          assert sent + [] == sent;
          return;
        }
        chunks := chunks + [chunk.value];
      }
    }
  }

  // ------------------------------------------------------------------
  // Buckets of a subscription
  // ------------------------------------------------------------------

  /** `products` with each option appended in turn, in order. */
  function Crossed(products: seq<seq<string>>, options: seq<string>): seq<seq<string>> {
    if products == [] then []
    else Crossed(products[..|products| - 1], options) + Extensions(products[|products| - 1], options)
  }

  function Extensions(product: seq<string>, options: seq<string>): seq<seq<string>> {
    seq(|options|, i requires 0 <= i < |options| => product + [options[i]])
  }

  function Product(values: seq<seq<string>>): seq<seq<string>> {
    if values == [] then [[]] else Crossed(Product(values[..|values| - 1]), values[|values| - 1])
  }

  /** The nested loops over options. */
  method CartesianProduct(values: seq<seq<string>>) returns (products: seq<seq<string>>)
    ensures products == Product(values)
  {
    products := [[]];
    for n := 0 to |values|
      invariant products == Product(values[..n])
    {
      products := Cross(products, values[n]);
      assert values[..n + 1][..n] == values[..n];
    }
    assert values[..|values|] == values;
  }

  method Cross(products: seq<seq<string>>, options: seq<string>) returns (next: seq<seq<string>>)
    ensures next == Crossed(products, options)
  {
    next := [];
    for i := 0 to |products|
      invariant next == Crossed(products[..i], options)
    {
      ghost var before := next;
      for j := 0 to |options|
        invariant next == before + Extensions(products[i], options)[..j]
      {
        next := next + [products[i] + [options[j]]];
      }
      assert Extensions(products[i], options)[..|options|] == Extensions(products[i], options);
      assert products[..i + 1][..i] == products[..i];
    }
    assert products[..|products|] == products;
  }

  lemma ExtensionsHold(product: seq<string>, options: seq<string>, p: seq<string>)
    ensures p in Extensions(product, options) <==> p != [] && p[..|p| - 1] == product && p[|p| - 1] in options
  {
    if p != [] && p[..|p| - 1] == product && p[|p| - 1] in options {
      var i :| 0 <= i < |options| && options[i] == p[|p| - 1];
      assert Extensions(product, options)[i] == p;
    }
  }

  lemma {:induction false} CrossedHolds(products: seq<seq<string>>, options: seq<string>, p: seq<string>)
    ensures p in Crossed(products, options) <==> p != [] && p[..|p| - 1] in products && p[|p| - 1] in options
  {
    if products != [] {
      var front, last := products[..|products| - 1], products[|products| - 1];
      assert products == front + [last];
      CrossedHolds(front, options, p);
      ExtensionsHold(last, options, p);
    }
  }

  lemma {:induction false} CrossedSize(products: seq<seq<string>>, options: seq<string>)
    ensures |Crossed(products, options)| == |products| * |options|
  {
    if products != [] {
      CrossedSize(products[..|products| - 1], options);
      assert |products| * |options| == (|products| - 1) * |options| + |options|;
    }
  }

  function SizeOf(values: seq<seq<string>>): nat {
    if values == [] then 1 else SizeOf(values[..|values| - 1]) * |values[|values| - 1]|
  }

  /** The product holds exactly the choices of one value per parameter, and as
      many of them as the option counts multiply to. */
  lemma {:induction false} ProductIsAllChoices(values: seq<seq<string>>, p: seq<string>)
    ensures p in Product(values) <==> |p| == |values| && forall i | 0 <= i < |values| :: p[i] in values[i]
    ensures |Product(values)| == SizeOf(values)
    decreases |values|
  {
    if values != [] {
      var front, last := values[..|values| - 1], values[|values| - 1];
      CrossedHolds(Product(front), last, p);
      CrossedSize(Product(front), last);
      if p == [] {
        ProductIsAllChoices(front, []);
      } else {
        ProductIsAllChoices(front, p[..|p| - 1]);
      }
    }
  }

  /** usize::saturating_mul */
  function SaturatingMul(a: nat, b: nat): nat {
    if a * b > U64_MAX then U64_MAX else a * b
  }

  function SaturatedSize(values: seq<seq<string>>): nat {
    if values == [] then 1 else SaturatingMul(SaturatedSize(values[..|values| - 1]), |values[|values| - 1]|)
  }

  lemma {:induction false} SaturationIsCapped(values: seq<seq<string>>)
    ensures SaturatedSize(values) == Min(U64_MAX, SizeOf(values))
  {
    if values != [] {
      var front, n := SizeOf(values[..|values| - 1]), |values[|values| - 1]|;
      SaturationIsCapped(values[..|values| - 1]);
      if front > U64_MAX && n > 0 {
        assert U64_MAX * n >= U64_MAX && front * n >= front;
      }
    }
  }

  /** The size check, made before the product is built, lets exactly those
      requests through whose buckets fit the limit; only a limit at the machine
      maximum could let a larger request pass. */
  lemma SizeCheckIsExact(values: seq<seq<string>>, resolved: nat, limit: nat)
    ensures var refused := Min(U64_MAX, resolved + SaturatedSize(values)) > limit;
            (refused <==> resolved + |Product(values)| > limit)
            <==> (limit < U64_MAX || resolved + |Product(values)| <= limit)
  {
    ProductIsAllChoices(values, []);
    SaturationIsCapped(values);
  }
}
