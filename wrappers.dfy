/** Optional values, Python exceptions and results that may carry one. */
module Wrappers {

  datatype Option<+T> = None | Some(value: T)

  /** The exceptions the modelled code raises (or lets escape) on bad input. */
  datatype PyError =
    | RuntimeError(message: string)
    | AttributeError        // `.get` called on something that is not a dict
    | KeyError(key: string) // `d[key]` on a dict without that key
    | IndexError            // `s[i]` past the end of a sequence
    | TypeError             // arithmetic, `int()` or indexing on a value of the wrong type
    | ValueError            // `int(...)` of a string that is not a number
    | ZeroDivisionError

  datatype Result<+T> = Ok(value: T) | Err(error: PyError) {
    predicate IsFailure() { Err? }

    function PropagateFailure<U>(): Result<U>
      requires Err?
    {
      Err(error)
    }

    function Extract(): T
      requires Ok?
    {
      value
    }
  }

  /** `f` applied to every element in order, as a Python loop appending `f(x)` for each `x`:
      the first element whose call raises ends the loop with that exception. */
  function Each<A, T>(f: A -> Result<T>, xs: seq<A>): (r: Result<seq<T>>)
    ensures r.Ok? <==> forall i :: 0 <= i < |xs| ==> f(xs[i]).Ok?
    ensures r.Ok? ==> |r.value| == |xs| && forall i :: 0 <= i < |xs| ==> Ok(r.value[i]) == f(xs[i])
    ensures r.Err? ==>
      exists i :: 0 <= i < |xs| && f(xs[i]) == Err(r.error) && forall j :: 0 <= j < i ==> f(xs[j]).Ok?
  {
    if xs == [] then Ok([])
    else
      var init := xs[..|xs| - 1];
      assert forall i :: 0 <= i < |xs| - 1 ==> xs[i] == init[i];
      var head :- Each(f, init);
      var last :- f(xs[|xs| - 1]);
      Ok(head + [last])
  }

  /** One more element that succeeds extends the results by its value. */
  lemma EachStep<A, T>(f: A -> Result<T>, xs: seq<A>, i: nat)
    requires i < |xs| && Each(f, xs[..i]).Ok? && f(xs[i]).Ok?
    ensures Each(f, xs[..i + 1]) == Ok(Each(f, xs[..i]).value + [f(xs[i]).value])
  {
    assert xs[..i + 1][..i] == xs[..i];
  }

  /** The first element whose call raises decides the outcome of the whole loop. */
  lemma EachFirstError<A, T>(f: A -> Result<T>, xs: seq<A>, i: nat)
    requires i < |xs| && Each(f, xs[..i]).Ok? && f(xs[i]).Err?
    ensures Each(f, xs) == Err(f(xs[i]).error)
  {
    var p := xs[..i + 1];
    assert p[..|p| - 1] == xs[..i];
    EachErrorStays(f, xs, i + 1);
  }

  /** Once a prefix has raised, the elements after it are never reached. */
  lemma {:induction false} EachErrorStays<A, T>(f: A -> Result<T>, xs: seq<A>, j: nat)
    requires j <= |xs| && Each(f, xs[..j]).Err?
    ensures Each(f, xs) == Each(f, xs[..j])
    decreases |xs|
  {
    if j < |xs| {
      var init := xs[..|xs| - 1];
      assert init[..j] == xs[..j];
      EachErrorStays(f, init, j);
    } else {
      assert xs[..j] == xs;
    }
  }
}
