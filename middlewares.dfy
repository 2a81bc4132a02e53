/** src/utils/applyMiddlewares.js */
module Middlewares {
  import opened Wrappers
  import opened Errors

  /** An entry of the middleware list: a text transform, or any value that is not a function. */
  datatype Stage = Fn(f: string -> string) | NotAFunction

  predicate AllFunctions(stages: seq<Stage>) {
    forall k :: 0 <= k < |stages| ==> stages[k].Fn?
  }

  /** `i` is the first entry of `stages` that is not a function. */
  predicate FirstInvalid(stages: seq<Stage>, i: nat) {
    i < |stages| && stages[i].NotAFunction? && forall k :: 0 <= k < i ==> stages[k].Fn?
  }

  /**
   * applyMiddlewares: `reduce` over the list from the left, starting at `text`; an entry
   * that is not a function throws the indexed error, and no partial text is returned.
   */
  function Apply(text: string, stages: seq<Stage>): (r: Result<string, Err>)
    ensures r.Success? <==> AllFunctions(stages)
    ensures r.Failure? ==> r.error.InvalidMiddleware? && FirstInvalid(stages, r.error.index)
    decreases |stages|
  {
    if stages == [] then Success(text)
    else
      var last := |stages| - 1;
      match Apply(text, stages[..last])
      case Failure(e) => Failure(e)
      case Success(u) =>
        match stages[last]
        case Fn(f) => Success(f(u))
        case NotAFunction => Failure(InvalidMiddleware(last))
  }

  /** Reference definition: the first stage's output is the second stage's input, and so on. */
  function Compose(text: string, stages: seq<Stage>): string
    requires AllFunctions(stages)
    decreases |stages|
  {
    if stages == [] then text else Compose(stages[0].f(text), stages[1..])
  }

  lemma {:induction false} ComposeSnoc(text: string, stages: seq<Stage>, f: string -> string)
    requires AllFunctions(stages)
    ensures AllFunctions(stages + [Fn(f)])
    ensures Compose(text, stages + [Fn(f)]) == f(Compose(text, stages))
    decreases |stages|
  {
    var s := stages + [Fn(f)];
    assert AllFunctions(s) by {
      forall k | 0 <= k < |s| ensures s[k].Fn? {
        if k < |stages| { assert s[k] == stages[k]; }
      }
    }
    if stages != [] {
      assert s[1..] == stages[1..] + [Fn(f)];
      ComposeSnoc(stages[0].f(text), stages[1..], f);
    }
  }

  /** The empty list leaves the text unchanged. */
  lemma EmptyIsIdentity(text: string)
    ensures Apply(text, []) == Success(text)
  {
  }

  /** With every entry a function, Apply is the left-to-right fold. */
  lemma {:induction false} ApplyIsLeftToRightFold(text: string, stages: seq<Stage>)
    requires AllFunctions(stages)
    ensures Apply(text, stages) == Success(Compose(text, stages))
    decreases |stages|
  {
    if stages != [] {
      var last := |stages| - 1;
      var init := stages[..last];
      assert AllFunctions(init) by {
        forall k | 0 <= k < |init| ensures init[k].Fn? { assert init[k] == stages[k]; }
      }
      ApplyIsLeftToRightFold(text, init);
      ComposeSnoc(text, init, stages[last].f);
      assert init + [Fn(stages[last].f)] == stages;
    }
  }

  /** The first non-function entry decides the failure, whatever follows it. */
  lemma {:induction false} FailureIgnoresSuffix(text: string, stages: seq<Stage>, i: nat, rest: seq<Stage>)
    requires FirstInvalid(stages, i)
    ensures Apply(text, stages[..i + 1] + rest) == Failure(InvalidMiddleware(i))
    ensures Apply(text, stages) == Failure(InvalidMiddleware(i))
  {
    var p := stages[..i + 1];
    assert forall k :: 0 <= k <= i ==> (p + rest)[k] == stages[k];
    assert !AllFunctions(p + rest);
    assert !AllFunctions(stages);
  }

  /** An error index from a list offset by `n` entries. */
  function ShiftIndex(r: Result<string, Err>, n: nat): Result<string, Err> {
    match r
    case Failure(InvalidMiddleware(j)) => Failure(InvalidMiddleware(n + j))
    case _ => r
  }

  /**
   * Running `a ++ b` is running `a`, then `b` on its output; a failure inside `b` is
   * reported at its position in the joined list.
   */
  lemma {:induction false} ApplyConcat(text: string, a: seq<Stage>, b: seq<Stage>)
    requires AllFunctions(a)
    ensures Apply(text, a).Success?
    ensures Apply(text, a + b) == ShiftIndex(Apply(Apply(text, a).value, b), |a|)
    decreases |b|
  {
    var u := Apply(text, a).value;
    if b == [] {
      assert a + b == a;
    } else {
      var last := |b| - 1;
      assert (a + b)[..|a| + last] == a + b[..last];
      assert (a + b)[|a| + last] == b[last];
      ApplyConcat(text, a, b[..last]);
    }
  }

  /** When both lists are all functions, the composition is exact. */
  lemma Composition(text: string, a: seq<Stage>, b: seq<Stage>)
    requires AllFunctions(a) && AllFunctions(b)
    ensures Apply(text, a).Success?
    ensures Apply(text, a + b) == Apply(Apply(text, a).value, b)
  {
    ApplyConcat(text, a, b);
  }
}
