/** The part of `URLSearchParams` the middlewares and the auth callback use:
    a query string as its ordered list of name-value pairs. */
module UrlQuery {
  import opened Wrappers

  type Params = seq<(string, string)>

  /** `searchParams.get(name)`: the value of the first pair with that name. */
  function Get(q: Params, name: string): (r: Option<string>)
    ensures r.None? <==> forall i :: 0 <= i < |q| ==> q[i].0 != name
    ensures r.Some? ==> exists i :: 0 <= i < |q| && q[i] == (name, r.value)
                                    && forall j :: 0 <= j < i ==> q[j].0 != name
  {
    if q == [] then None
    else if q[0].0 == name then Some(q[0].1)
    else
      var r := Get(q[1..], name);
      assert r.Some? ==> exists i :: 0 <= i < |q[1..]| && q[1..][i] == (name, r.value)
                                     && forall j :: 0 <= j < i ==> q[1..][j].0 != name;
      assert r.Some? ==> exists i :: 0 <= i < |q| && q[i] == (name, r.value)
                                     && forall j :: 0 <= j < i ==> q[j].0 != name by {
        if r.Some? {
          var i :| 0 <= i < |q[1..]| && q[1..][i] == (name, r.value)
                   && forall j :: 0 <= j < i ==> q[1..][j].0 != name;
          assert q[i + 1] == (name, r.value);
          assert forall j :: 0 <= j < i + 1 ==> q[j].0 != name by {
            forall j | 0 <= j < i + 1 ensures q[j].0 != name {
              if j > 0 { assert q[j] == q[1..][j - 1]; }
            }
          }
        }
      }
      r
  }

  /** The pairs whose name is not `name`, in order. */
  function Without(q: Params, name: string): (r: Params)
    ensures forall i :: 0 <= i < |r| ==> r[i].0 != name
  {
    if q == [] then []
    else if q[0].0 == name then Without(q[1..], name)
    else [q[0]] + Without(q[1..], name)
  }

  /** The number of pairs named `name`. */
  function Count(q: Params, name: string): nat
  {
    if q == [] then 0 else (if q[0].0 == name then 1 else 0) + Count(q[1..], name)
  }

  /** `searchParams.set(name, value)`: the first pair with that name takes
      the value and later ones are removed; with no such pair the new pair
      is appended. */
  function Set(q: Params, name: string, value: string): (r: Params)
  {
    if q == [] then [(name, value)]
    else if q[0].0 == name then [(name, value)] + Without(q[1..], name)
    else [q[0]] + Set(q[1..], name, value)
  }

  lemma {:induction false} WithoutCount(q: Params, name: string)
    ensures Count(Without(q, name), name) == 0
    ensures forall other :: other != name ==> Get(Without(q, name), other) == Get(q, other)
  {
    if q != [] {
      WithoutCount(q[1..], name);
    }
  }

  /** After `set`, the name occurs once, `get` returns the new value, every
      other name reads as before, and the other pairs keep their order. */
  lemma {:induction false} SetSpec(q: Params, name: string, value: string)
    ensures Count(Set(q, name, value), name) == 1
    ensures Get(Set(q, name, value), name) == Some(value)
    ensures forall other :: other != name ==> Get(Set(q, name, value), other) == Get(q, other)
    ensures Without(Set(q, name, value), name) == Without(q, name)
  {
    if q != [] {
      if q[0].0 == name {
        WithoutCount(q[1..], name);
        WithoutIdempotent(q[1..], name);
        assert forall other :: other != name ==> Get(q, other) == Get(q[1..], other);
      } else {
        SetSpec(q[1..], name, value);
      }
    }
  }

  lemma {:induction false} WithoutIdempotent(q: Params, name: string)
    ensures Without(Without(q, name), name) == Without(q, name)
  {
    if q != [] {
      WithoutIdempotent(q[1..], name);
    }
  }
}
