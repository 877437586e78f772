/** Setting up and taking down a loudness analyzer (monitor/analyzer.c): three library states, all or none. */
module Analyzer {
  import opened Wrappers

  /** The three handles of a context, and the library's live states, numbered in the order of their creation.
      Destroying a state also clears the handle it is reached by. */
  datatype Handles = Handles(momentary: Option<nat>, shortterm: Option<nat>, integrated: Option<nat>)
  datatype Library = Library(live: set<nat>, next: nat)

  /** Which of the three creations, and whether the setting of the history length, succeed. */
  datatype Answers = Answers(momentary: bool, shortterm: bool, integrated: bool, history: bool)

  predicate Succeeds(a: Answers) { a.momentary && a.shortterm && a.integrated && a.history }

  predicate Ready(h: Handles) { h.momentary.Some? && h.shortterm.Some? && h.integrated.Some? }

  function Owned(h: Handles): set<nat>
  {
    if Ready(h) then {h.momentary.value, h.shortterm.value, h.integrated.value} else {}
  }

  /** How many states a set-up creates before it fails or is done. */
  function Created(a: Answers): nat
  {
    if !a.momentary then 0 else if !a.shortterm then 1 else if !a.integrated then 2 else 3
  }

  /** The handles after a set-up: three new ones, or those that were reached cleared and the others as they were. */
  function SetUp(h: Handles, lib: Library, a: Answers): (Handles, Library)
  {
    var next := lib.next + Created(a);
    if Succeeds(a) then
      (Handles(Some(lib.next), Some(lib.next + 1), Some(lib.next + 2)),
       Library(lib.live + {lib.next, lib.next + 1, lib.next + 2}, next))
    else if !a.momentary then (h.(momentary := None), lib)
    else if !a.shortterm then (h.(momentary := None, shortterm := None), lib.(next := next))
    else (Handles(None, None, None), lib.(next := next))
  }

  function TakeDown(h: Handles, lib: Library): (Handles, Library)
  {
    if Ready(h) then (Handles(None, None, None), lib.(live := lib.live - Owned(h))) else (h, lib)
  }

  class AnalyzerContext {
    var momentary: Option<nat>
    var shortterm: Option<nat>
    var integrated: Option<nat>
    var library: Library

    ghost function Value(): (Handles, Library)
      reads this
    {
      (Handles(momentary, shortterm, integrated), library)
    }

    ghost predicate Valid()
      reads this
    {
      forall k :: k in library.live ==> k < library.next
    }

    /** `ebur128_init`. */
    method Create(ok: bool) returns (h: Option<nat>)
      modifies this`library
      ensures h == if ok then Some(old(library).next) else None
      ensures var lib := old(library);
              library == if ok then Library(lib.live + {lib.next}, lib.next + 1) else lib
    {
      h := None;
      if ok {
        h := Some(library.next);
        library := Library(library.live + {library.next}, library.next + 1);
      }
    }

    /** `ebur128_destroy`. */
    method Destroy(h: Option<nat>) returns (cleared: Option<nat>)
      requires h.Some?
      modifies this`library
      ensures cleared == None && library == old(library).(live := old(library).live - {h.value})
    {
      library := library.(live := library.live - {h.value});
      cleared := None;
    }

    method Init(a: Answers) returns (ok: bool)
      requires Valid()
      modifies this
      ensures Valid() && ok == Succeeds(a)
      ensures Value() == SetUp(old(Value()).0, old(library), a)
    {
      ghost var lib := library;
      momentary := Create(a.momentary);
      if momentary.None? {
        return false;
      }
      shortterm := Create(a.shortterm);
      if shortterm.None? {
        momentary := Destroy(momentary);
        assert library.live == lib.live;
        return false;
      }
      integrated := Create(a.integrated);
      if integrated.None? {
        shortterm := Destroy(shortterm);
        momentary := Destroy(momentary);
        assert library.live == lib.live;
        return false;
      }
      if !a.history {
        integrated := Destroy(integrated);
        shortterm := Destroy(shortterm);
        momentary := Destroy(momentary);
        assert library.live == lib.live;
        return false;
      }
      assert library.live == lib.live + {lib.next, lib.next + 1, lib.next + 2};
      return true;
    }

    method Uninit()
      requires Valid()
      modifies this
      ensures Valid() && Value() == TakeDown(old(Value()).0, old(library))
    {
      if integrated.None? || shortterm.None? || momentary.None? {
        return;
      }
      ghost var live, owned := library.live, Owned(Value().0);
      integrated := Destroy(integrated);
      shortterm := Destroy(shortterm);
      momentary := Destroy(momentary);
      assert library.live == live - owned;
    }
  }

  /** What is done with one context; a context that is ready is taken down before it is set up again. */
  datatype Op = Up(answers: Answers) | Down

  function Apply(c: (Handles, Library), op: Op): (Handles, Library)
  {
    match op case Up(a) => SetUp(c.0, c.1, a) case Down => TakeDown(c.0, c.1)
  }

  function ApplyAll(c: (Handles, Library), ops: seq<Op>): (Handles, Library)
  {
    if ops == [] then c else Apply(ApplyAll(c, ops[..|ops| - 1]), ops[|ops| - 1])
  }

  /** The first thing done with a context sets it up, and one that is ready is not set up. */
  ghost predicate Alternates(c: (Handles, Library), ops: seq<Op>)
  {
    && (ops != [] ==> ops[0].Up?)
    && (forall k :: 0 < k < |ops| && ops[k].Up? ==> !Ready(ApplyAll(c, ops[..k]).0))
  }

  /** The live states are those of the ready context. */
  ghost predicate Accounted(c: (Handles, Library))
  {
    c.1.live == Owned(c.0) && (forall k :: k in c.1.live ==> k < c.1.next)
  }

  /** A set-up of a context that owns nothing; `h` may otherwise be anything. */
  lemma SetUpAccounted(h: Handles, lib: Library, a: Answers)
    requires lib.live == {}
    ensures Accounted(SetUp(h, lib, a)) && (Ready(SetUp(h, lib, a).0) <==> Succeeds(a))
  {
  }

  lemma TakeDownAccounted(h: Handles, lib: Library)
    requires Accounted((h, lib))
    ensures Accounted(TakeDown(h, lib)) && !Ready(TakeDown(h, lib).0)
  {
  }

  /** Whatever the memory of the context held and whichever creations fail: after any such use the context is ready
      exactly if the last set-up succeeded and was not taken back, and the library's live states are those of the
      ready context and no others. */
  lemma {:induction false} NothingLeaks(h: Handles, ops: seq<Op>)
    requires ops != [] && Alternates((h, Library({}, 0)), ops)
    ensures var c := ApplyAll((h, Library({}, 0)), ops);
            && Accounted(c)
            && (Ready(c.0) <==> ops[|ops| - 1].Up? && Succeeds(ops[|ops| - 1].answers))
  {
    var c, n := (h, Library({}, 0)), |ops| - 1;
    var b := ApplyAll(c, ops[..n]);
    if n > 0 {
      assert forall k :: 0 < k < n ==> ops[..n][..k] == ops[..k];
      NothingLeaks(h, ops[..n]);
    } else {
      assert b == c;
    }
    if ops[n].Up? {
      SetUpAccounted(b.0, b.1, ops[n].answers);
    } else {
      TakeDownAccounted(b.0, b.1);
    }
  }
}
