/**
  The error combiner of errors.go: `combineErrors` drops the nil errors,
  collapses to nil or to the one remaining error when it can, and otherwise
  wraps the remaining errors in a `combinedErrors` value, whose message is
  the count followed by the messages joined with "; ".
 */
module Errors {
  import opened GoLib

  datatype Option<T> = None | Some(value: T)

  /**
    A Go `error` value: either a leaf error carrying its message (what
    `errors.New` builds) or a `combinedErrors` slice.
   */
  datatype Error = Simple(msg: string) | Combined(errs: seq<Error>)

  /** A Go `error` variable: `None` is `nil`. */
  type MaybeError = Option<Error>

  /** A Go `(T, error)` pair in which exactly one side is meaningful. */
  datatype Result<T> = Ok(value: T) | Fail(err: Error)

  // ---------------------------------------------------------------------
  // combineErrors

  /** The non-nil errors of `errs`, in their original order. */
  function NonNil(errs: seq<MaybeError>): seq<Error>
  {
    if |errs| == 0 then []
    else NonNil(errs[..|errs| - 1]) + (match errs[|errs| - 1] case None => [] case Some(e) => [e])
  }

  /** The result `combineErrors(errs...)` specifies. */
  function Combine(errs: seq<MaybeError>): MaybeError
  {
    var valid := NonNil(errs);
    if |valid| == 0 then None
    else if |valid| == 1 then Some(valid[0])
    else Some(Combined(valid))
  }

  /** `combineErrors`: the loop that collects the non-nil errors, then the collapse. */
  method CombineErrors(errs: seq<MaybeError>) returns (r: MaybeError)
    ensures r == Combine(errs)
  {
    var validErrors: seq<Error> := [];
    for i := 0 to |errs|
      invariant validErrors == NonNil(errs[..i])
    {
      assert errs[..i + 1][..i] == errs[..i];
      if errs[i].Some? {
        validErrors := validErrors + [errs[i].value];
      }
    }
    assert errs[..|errs|] == errs;
    if |validErrors| == 0 {
      return None;
    }
    if |validErrors| == 1 {
      return Some(validErrors[0]);
    }
    return Some(Combined(validErrors));
  }

  /** Filtering distributes over concatenation: order is kept. */
  lemma {:induction false} NonNilAppend(a: seq<MaybeError>, b: seq<MaybeError>)
    ensures NonNil(a + b) == NonNil(a) + NonNil(b)
  {
    if |b| > 0 {
      var init := b[..|b| - 1];
      assert (a + b)[..|a + b| - 1] == a + init;
      NonNilAppend(a, init);
    } else {
      assert a + b == a;
    }
  }

  /** A nil contributes nothing, a non-nil error contributes itself. */
  lemma NonNilSingle(e: MaybeError)
    ensures NonNil([e]) == (match e case None => [] case Some(x) => [x])
  {
    assert [e][..0] == [];
  }

  /** The filter keeps an error exactly when it was passed in. */
  lemma {:induction false} NonNilMembers(errs: seq<MaybeError>, x: Error)
    ensures x in NonNil(errs) <==> Some(x) in errs
  {
    if |errs| > 0 {
      var init := errs[..|errs| - 1];
      assert errs == init + [errs[|errs| - 1]];
      NonNilMembers(init, x);
    }
  }

  /** The filter is empty exactly when every argument is nil. */
  lemma {:induction false} NonNilEmpty(errs: seq<MaybeError>)
    ensures NonNil(errs) == [] <==> forall i :: 0 <= i < |errs| ==> errs[i].None?
  {
    if |errs| > 0 {
      var init := errs[..|errs| - 1];
      NonNilEmpty(init);
      assert forall i :: 0 <= i < |init| ==> init[i] == errs[i];
    }
  }

  /** `combineErrors` returns nil if and only if every argument is nil. */
  lemma CombineNilIff(errs: seq<MaybeError>)
    ensures Combine(errs).None? <==> forall i :: 0 <= i < |errs| ==> errs[i].None?
  {
    NonNilEmpty(errs);
  }

  /** With exactly one non-nil argument (at `k`), the result is that very error. */
  lemma CombineSingle(errs: seq<MaybeError>, k: nat)
    requires k < |errs| && errs[k].Some?
    requires forall i :: 0 <= i < |errs| && i != k ==> errs[i].None?
    ensures Combine(errs) == errs[k]
  {
    var before, after := errs[..k], errs[k + 1..];
    assert errs == before + [errs[k]] + after;
    NonNilAppend(before + [errs[k]], after);
    NonNilAppend(before, [errs[k]]);
    NonNilSingle(errs[k]);
    NonNilEmpty(before);
    assert forall i :: 0 <= i < |after| ==> after[i] == errs[k + 1 + i];
    NonNilEmpty(after);
  }

  /**
    With two or more non-nil arguments the result wraps all of them, in
    order, and its length is their number.
   */
  lemma CombineMany(errs: seq<MaybeError>)
    requires |NonNil(errs)| >= 2
    ensures Combine(errs) == Some(Combined(NonNil(errs)))
    ensures |Combine(errs).value.errs| == |NonNil(errs)|
  {
  }

  /** The error from a cleanup and a primary error, in that order. */
  lemma CombinePair(first: MaybeError, second: MaybeError)
    ensures first.None? ==> Combine([first, second]) == second
    ensures second.None? ==> Combine([first, second]) == first
    ensures first.Some? && second.Some? ==>
      Combine([first, second]) == Some(Combined([first.value, second.value]))
  {
    assert [first, second] == [first] + [second];
    NonNilAppend([first], [second]);
    NonNilSingle(first);
    NonNilSingle(second);
    assert NonNil([first, second]) == NonNil([first]) + NonNil([second]);
    if first.Some? && second.Some? {
      assert NonNil([first]) == [first.value];
      assert NonNil([second]) == [second.value];
      assert NonNil([first, second]) == [first.value, second.value];
    }
  }

  // ---------------------------------------------------------------------
  // combinedErrors.Error()

  /** The message `err.Error()` returns. */
  function Message(e: Error): string
  {
    match e
    case Simple(msg) => msg
    case Combined(errs) =>
      Itoa(|errs|) + " errors: " + Join(seq(|errs|, i requires 0 <= i < |errs| => Message(errs[i])), "; ")
  }

  /** `combinedErrors.Error()`: the count prefix, then each message in turn. */
  method CombinedMessage(errs: seq<Error>) returns (s: string)
    ensures s == Message(Combined(errs))
  {
    s := Itoa(|errs|) + " errors: ";
    var msgs: seq<string> := [];
    for i := 0 to |errs|
      invariant |msgs| == i
      invariant forall k :: 0 <= k < i ==> msgs[k] == Message(errs[k])
    {
      msgs := msgs + [Message(errs[i])];
    }
    assert msgs == seq(|errs|, i requires 0 <= i < |errs| => Message(errs[i]));
    s := s + Join(msgs, "; ");
  }

  /**
    The message of two or more combined errors starts with the count and
    " errors: ", and the first message follows directly.
   */
  lemma CombinedMessageShape(errs: seq<Error>)
    requires |errs| >= 2
    ensures var m := Message(Combined(errs));
      var prefix := Itoa(|errs|) + " errors: " + Message(errs[0]) + "; ";
      |prefix| <= |m| && m[..|prefix|] == prefix
  {
    var msgs := seq(|errs|, i requires 0 <= i < |errs| => Message(errs[i]));
    assert msgs == [msgs[0]] + msgs[1..];
    JoinCons(msgs[0], msgs[1..], "; ");
  }

  /** Two combined errors: the message is "2 errors: ", the first message, "; " and the second. */
  lemma CombinedPairMessage(first: Error, second: Error)
    ensures Message(Combined([first, second])) == "2 errors: " + Message(first) + "; " + Message(second)
  {
    var m1, m2 := Message(first), Message(second);
    var msgs := seq(2, i requires 0 <= i < 2 => Message([first, second][i]));
    assert msgs == [m1, m2];
    JoinPair(m1, m2, "; ");
    assert Itoa(2) + " errors: " == "2 errors: " by {
      assert Itoa(2) == "2";
    }
    assert "2 errors: " + (m1 + "; " + m2) == "2 errors: " + m1 + "; " + m2;
  }

  /** The pinned results of errors_test.go; duplicates are not merged. */
  lemma CombineTestCases()
    ensures Combine([]) == None
    ensures Combine([Some(Simple("hello"))]) == Some(Simple("hello"))
    ensures var c := Combine([Some(Simple("hello")), Some(Simple("hello"))]);
      c.Some? && Message(c.value) == "2 errors: hello; hello"
  {
    var hello := Simple("hello");
    CombineSingle([Some(hello)], 0);
    CombinePair(Some(hello), Some(hello));
    RepeatedMessage(hello);
    assert "2 errors: " + "hello" + "; " + "hello" == "2 errors: hello; hello";
  }

  /** The message of an error combined with itself names it twice: nothing is deduplicated. */
  lemma RepeatedMessage(e: Error)
    ensures Message(Combined([e, e])) == "2 errors: " + Message(e) + "; " + Message(e)
  {
    CombinedPairMessage(e, e);
  }
}
