/** `MovementsViewModel` and `MovementsUiState`.

    The view model owns one state holder that starts at `Loading`; every
    `loadData` sets `Loading`, calls the summary use case and sets the state
    that mirrors its answer. Coroutines are left out: a load is one
    sequential step, and the model keeps the whole history of values written
    to the state holder as a trace, oldest first.
 */
module ViewModel {
  import opened Wrappers
  import Domain

  const UnknownError := "Unknown error"

  /** What the screen renders. */
  datatype MovementsUiState = Loading | Success(data: Domain.AccountSummary) | Error(message: string)

  /** Every value written to the state holder, oldest first; the last one is
      the current state. */
  type Trace = t: seq<MovementsUiState> | |t| > 0 witness [Loading]

  function Current(t: Trace): MovementsUiState
  {
    t[|t| - 1]
  }

  /** The state holder before any load has produced a result. */
  const Initial: Trace := [Loading]

  /** The `when` over the use case's result: each variant becomes the UI
      state of the same name, with the same payload. */
  function Mirror(r: Domain.Result<Domain.AccountSummary>): (s: MovementsUiState)
    ensures s.Success? <==> r.Success?
    ensures s.Error? <==> r.Error?
    ensures s.Loading? <==> r.Loading?
    ensures s.Success? ==> s.data == r.data
    ensures s.Error? ==> s.message == r.message
  {
    match r
    case Success(d) => Success(d)
    case Error(m) => Error(m)
    case Loading => Loading
  }

  /** The state a load ends in, given what the use case call did: its result
      mirrored, or the exception's message ("Unknown error" without one). */
  function Settle(call: Outcome<Domain.Result<Domain.AccountSummary>>): (s: MovementsUiState)
    ensures call.Ok? ==> s == Mirror(call.value)
    ensures call.Throw? ==> s == Error(MessageOr(call.message, UnknownError))
  {
    match call
    case Ok(r) => Mirror(r)
    case Throw(m) => Error(MessageOr(m, UnknownError))
  }

  /** `loadData`: write `Loading`, then exactly one follow-up state. */
  function LoadData(t: Trace, call: Outcome<Domain.Result<Domain.AccountSummary>>): (t': Trace)
    ensures |t'| == |t| + 2
    ensures t'[..|t|] == t
    ensures t'[|t|] == Loading
    ensures Current(t') == Settle(call)
  {
    t + [Loading, Settle(call)]
  }

  /** Constructing the view model: the state holder starts at `Loading` and
      `init` runs one load. */
  function Create(call: Outcome<Domain.Result<Domain.AccountSummary>>): (t: Trace)
    ensures |t| == 3 && t[0] == Loading && t[1] == Loading
    ensures Current(t) == Settle(call)
  {
    LoadData(Initial, call)
  }

  /** No state carries over: after a load the current state depends only on
      that load's use case call, whatever came before. */
  lemma LoadDataForgetsHistory(t1: Trace, t2: Trace, call: Outcome<Domain.Result<Domain.AccountSummary>>)
    ensures Current(LoadData(t1, call)) == Current(LoadData(t2, call))
  {
  }

  /** What a collector of the state holder observes: a `StateFlow` only
      emits a value that differs from the current one, so each run of equal
      writes is seen once. */
  function Conflate(t: seq<MovementsUiState>): (r: seq<MovementsUiState>)
    ensures |r| <= |t|
    ensures |t| > 0 ==> |r| > 0 && r[0] == t[0] && r[|r| - 1] == t[|t| - 1]
    ensures forall i :: 0 <= i < |r| - 1 ==> r[i] != r[i + 1]
    ensures forall x :: x in r <==> x in t
  {
    if |t| <= 1 then t
    else if t[|t| - 1] == t[|t| - 2] then Conflate(t[..|t| - 1])
    else Conflate(t[..|t| - 1]) + [t[|t| - 1]]
  }

  /** `r` is `t` with some elements deleted and the rest in their order
      (matched greedily from the back). */
  predicate IsSubsequence<T(==)>(r: seq<T>, t: seq<T>)
    decreases |t|
  {
    if |r| == 0 then true
    else if |t| == 0 then false
    else if r[|r| - 1] == t[|t| - 1] then IsSubsequence(r[..|r| - 1], t[..|t| - 1])
    else IsSubsequence(r, t[..|t| - 1])
  }

  /** Writing one more value keeps every earlier subsequence. */
  lemma {:induction false} SubsequenceExtend<T>(r: seq<T>, t: seq<T>, x: T)
    requires IsSubsequence(r, t)
    ensures IsSubsequence(r, t + [x])
    decreases |t|, 1
  {
    assert (t + [x])[..|t|] == t;
    if |r| > 0 && r[|r| - 1] == x {
      SubsequenceDropLast(r, t);
    }
  }

  /** Dropping the last element of a subsequence keeps it a subsequence. */
  lemma {:induction false} SubsequenceDropLast<T>(r: seq<T>, t: seq<T>)
    requires |r| > 0 && IsSubsequence(r, t)
    ensures IsSubsequence(r[..|r| - 1], t)
    decreases |t|, 0
  {
    var t' := t[..|t| - 1];
    assert t' + [t[|t| - 1]] == t;
    if r[|r| - 1] == t[|t| - 1] {
      SubsequenceExtend(r[..|r| - 1], t', t[|t| - 1]);
    } else {
      SubsequenceDropLast(r, t');
      SubsequenceExtend(r[..|r| - 1], t', t[|t| - 1]);
    }
  }

  /** A collector sees the written values in the order they were written:
      the observed sequence is a subsequence of the trace. */
  lemma {:induction false} ConflateIsSubsequence(t: seq<MovementsUiState>)
    ensures IsSubsequence(Conflate(t), t)
    decreases |t|
  {
    if |t| == 1 {
      assert t[..0] == [];
    } else if |t| > 1 {
      var p := t[..|t| - 1];
      ConflateIsSubsequence(p);
      if t[|t| - 1] == t[|t| - 2] {
        SubsequenceExtend(Conflate(p), p, t[|t| - 1]);
        assert p + [t[|t| - 1]] == t;
      } else {
        assert (Conflate(p) + [t[|t| - 1]])[..|Conflate(p)|] == Conflate(p);
      }
    }
  }

  /** What a collector sees, computed the way a `StateFlow` works: walk the
      writes in order and emit a value only when it differs from the last
      one emitted. It agrees with `Conflate`. */
  method Collect(t: seq<MovementsUiState>) returns (seen: seq<MovementsUiState>)
    ensures seen == Conflate(t)
  {
    seen := [];
    var i := 0;
    while i < |t|
      invariant 0 <= i <= |t|
      invariant seen == Conflate(t[..i])
    {
      assert t[..i + 1][..i] == t[..i];
      if |seen| == 0 || seen[|seen| - 1] != t[i] {
        seen := seen + [t[i]];
      }
      i := i + 1;
    }
    assert t[..i] == t;
  }

  /** Two loads, the first succeeding and the second failing: the state
      holder is written Loading (initial), Loading, Success, Loading, Error,
      and a collector sees Loading, Success, Loading, Error. */
  lemma SuccessThenErrorTrace(s: Domain.AccountSummary, m: string)
    ensures var t := LoadData(Create(Ok(Domain.Success(s))), Ok(Domain.Error(m)));
            && t == [Loading, Loading, Success(s), Loading, Error(m)]
            && Conflate(t) == [Loading, Success(s), Loading, Error(m)]
  {
    var t := LoadData(Create(Ok(Domain.Success(s))), Ok(Domain.Error(m)));
    assert t == [Loading, Loading, Success(s), Loading, Error(m)];
    var p2, p3, p4 := t[..2], t[..3], t[..4];
    assert p2[..1] == [Loading];
    assert Conflate(p2) == [Loading];
    assert p3[..2] == p2;
    assert Conflate(p3) == [Loading, Success(s)];
    assert p4[..3] == p3;
    assert Conflate(p4) == [Loading, Success(s), Loading];
    assert t[..4] == p4;
  }

  /** A use case that throws leaves the screen in `Error` with the message,
      after the initial `Loading`; one that answers `Loading` leaves it
      `Loading`. */
  lemma ThrowingUseCase(message: string)
    ensures Conflate(Create(Throw(Some(message)))) == [Loading, Error(message)]
    ensures Current(Create(Throw(None))) == Error(UnknownError)
    ensures Conflate(Create(Ok(Domain.Loading))) == [Loading]
  {
  }
}
