/** A counted run of records, as every list in the box formats is written and read. */
module Many {
  import opened Base
  import opened Wire

  function GetMany<T>(get: Bytes -> Parsed<T>, n: nat, b: Bytes): (r: Parsed<seq<T>>)
    ensures r.Success? ==> |r.value.0| == n
  {
    if n == 0 then Success(([], b))
    else
      var before :- GetMany(get, n - 1, b);
      var last :- get(before.1);
      Success((before.0 + [last.0], last.1))
  }

  function PutMany<T>(put: T -> Outcome<Bytes>, items: seq<T>): Outcome<Bytes> {
    if items == [] then Success([])
    else Then(PutMany(put, items[..|items| - 1]), put(items[|items| - 1]))
  }

  function Each<T>(norm: T -> T, items: seq<T>): (r: seq<T>)
    ensures |r| == |items|
  {
    seq(|items|, i requires 0 <= i < |items| => norm(items[i]))
  }

  /** If every record comes back from the wire, so does a run of them. */
  lemma {:induction false} ManyRoundTrips<T(!new)>(
      get: Bytes -> Parsed<T>, put: T -> Outcome<Bytes>, norm: T -> T, items: seq<T>, rest: Bytes)
    requires forall i :: 0 <= i < |items| ==> put(items[i]).Success?
    requires forall i, tail: Bytes :: 0 <= i < |items| ==> get(put(items[i]).value + tail) == Success((norm(items[i]), tail))
    ensures PutMany(put, items).Success?
    ensures GetMany(get, |items|, PutMany(put, items).value + rest) == Success((Each(norm, items), rest))
  {
    if items == [] {
      assert PutMany(put, items).value + rest == rest;
    } else {
      var n := |items| - 1;
      var last := put(items[n]).value;
      forall i | 0 <= i < n ensures items[..n][i] == items[i] {}
      ManyRoundTrips(get, put, norm, items[..n], last + rest);
      assert PutMany(put, items).value + rest == PutMany(put, items[..n]).value + (last + rest);
      assert Each(norm, items) == Each(norm, items[..n]) + [norm(items[n])];
    }
  }

  /** Every record of a run is one the record reader gave. */
  lemma {:induction false} ManyFit<T(!new)>(get: Bytes -> Parsed<T>, fits: T -> bool, n: nat, b: Bytes)
    requires forall s :: get(s).Success? ==> fits(get(s).value.0)
    ensures GetMany(get, n, b).Success? ==> forall i :: 0 <= i < n ==> fits(GetMany(get, n, b).value.0[i])
  {
    if n > 0 { ManyFit(get, fits, n - 1, b); }
  }

  /** The first record that cannot be read decides the error. */
  lemma {:induction false} ReadingStops<T>(get: Bytes -> Parsed<T>, k: nat, n: nat, b: Bytes)
    requires k <= n && GetMany(get, k, b).Failure?
    ensures GetMany(get, n, b) == GetMany(get, k, b)
  {
    if k < n { ReadingStops(get, k, n - 1, b); }
  }

  /** The first record that cannot be written decides the error. */
  lemma {:induction false} WritingStops<T>(put: T -> Outcome<Bytes>, k: nat, items: seq<T>)
    requires k <= |items| && PutMany(put, items[..k]).Failure?
    ensures PutMany(put, items) == PutMany(put, items[..k])
  {
    if k == |items| {
      assert items[..k] == items;
    } else {
      assert items[..|items| - 1][..k] == items[..k];
      WritingStops(put, k, items[..|items| - 1]);
    }
  }

  /** One record further along the run. */
  lemma OneMoreWritten<T>(put: T -> Outcome<Bytes>, items: seq<T>, k: nat)
    requires k < |items|
    ensures PutMany(put, items[..k + 1]) == Then(PutMany(put, items[..k]), put(items[k]))
  {
    assert items[..k + 1][..k] == items[..k];
  }
}
