/**
 * The `URLSearchParams` interface of section 6.2 of the WHATWG URL Standard,
 * on values: a parameter list is an ordered list of name-value pairs in
 * which a name may repeat. `get` returns the first value, `getAll` every
 * value in order, `append` adds at the end, `delete` removes every pair with
 * the name, and `set` overwrites the first pair with the name and removes the
 * others, or appends when there is none.
 */
module QueryParams {
  import opened Wrappers

  type Params = seq<(string, string)>

  /** `params.has(name)` */
  predicate Has(ps: Params, name: string) {
    ps != [] && (ps[0].0 == name || Has(ps[1..], name))
  }

  /** `params.get(name)`: the value of the first pair with that name, or null. */
  function Get(ps: Params, name: string): (r: Option<string>)
    ensures r.None? <==> !Has(ps, name)
  {
    if ps == [] then None
    else if ps[0].0 == name then Some(ps[0].1)
    else Get(ps[1..], name)
  }

  /** `params.getAll(name)`: the values of all pairs with that name, in list order. */
  function GetAll(ps: Params, name: string): (r: seq<string>)
    ensures |r| <= |ps|
  {
    if ps == [] then []
    else if ps[0].0 == name then [ps[0].1] + GetAll(ps[1..], name)
    else GetAll(ps[1..], name)
  }

  /** `params.append(name, value)` */
  function Append(ps: Params, name: string, value: string): (r: Params)
    ensures |r| == |ps| + 1 && r[..|ps|] == ps && r[|ps|] == (name, value)
  {
    ps + [(name, value)]
  }

  /** `params.delete(name)`: removes every pair with that name and keeps the rest in order. */
  function Delete(ps: Params, name: string): (r: Params)
    ensures !Has(r, name)
    ensures |r| <= |ps|
  {
    if ps == [] then []
    else if ps[0].0 == name then Delete(ps[1..], name)
    else [ps[0]] + Delete(ps[1..], name)
  }

  /** `params.set(name, value)` */
  function Set(ps: Params, name: string, value: string): (r: Params)
  {
    if Has(ps, name) then SetFirst(ps, name, value) else Append(ps, name, value)
  }

  /** The first pair named `name` gets `value`; the later ones are dropped. */
  function SetFirst(ps: Params, name: string, value: string): (r: Params)
    requires Has(ps, name)
  {
    if ps[0].0 == name then [(name, value)] + Delete(ps[1..], name)
    else [ps[0]] + SetFirst(ps[1..], name, value)
  }

  lemma {:induction false} HasConcat(a: Params, b: Params, name: string)
    ensures Has(a + b, name) <==> Has(a, name) || Has(b, name)
  {
    if a == [] {
      assert a + b == b;
    } else {
      assert (a + b)[0] == a[0] && (a + b)[1..] == a[1..] + b;
      HasConcat(a[1..], b, name);
    }
  }

  /** `has` holds exactly when some pair carries the name. */
  lemma {:induction false} HasIndex(ps: Params, name: string)
    ensures Has(ps, name) <==> exists i :: 0 <= i < |ps| && ps[i].0 == name
  {
    if ps != [] {
      HasIndex(ps[1..], name);
      if Has(ps[1..], name) {
        var i :| 0 <= i < |ps[1..]| && ps[1..][i].0 == name;
        assert ps[i + 1].0 == name;
      }
      if exists i :: 0 <= i < |ps| && ps[i].0 == name {
        var i :| 0 <= i < |ps| && ps[i].0 == name;
        if i > 0 {
          assert ps[1..][i - 1].0 == name;
        }
      }
    }
  }

  // ----- get and getAll -----

  /** `get` is the first element of `getAll`. */
  lemma {:induction false} GetIsFirstOfGetAll(ps: Params, name: string)
    ensures Get(ps, name) == if GetAll(ps, name) == [] then None else Some(GetAll(ps, name)[0])
  {
    if ps != [] && ps[0].0 != name {
      GetIsFirstOfGetAll(ps[1..], name);
    }
  }

  lemma {:induction false} GetAllConcat(a: Params, b: Params, name: string)
    ensures GetAll(a + b, name) == GetAll(a, name) + GetAll(b, name)
  {
    if a != [] {
      assert (a + b)[0] == a[0] && (a + b)[1..] == a[1..] + b;
      GetAllConcat(a[1..], b, name);
    } else {
      assert a + b == b;
    }
  }

  lemma {:induction false} GetConcat(a: Params, b: Params, name: string)
    ensures Get(a + b, name) == if Has(a, name) then Get(a, name) else Get(b, name)
  {
    if a != [] {
      assert (a + b)[0] == a[0] && (a + b)[1..] == a[1..] + b;
      GetConcat(a[1..], b, name);
    } else {
      assert a + b == b;
    }
  }

  lemma {:induction false} GetAllAbsent(ps: Params, name: string)
    requires !Has(ps, name)
    ensures GetAll(ps, name) == []
  {
    if ps != [] {
      GetAllAbsent(ps[1..], name);
    }
  }

  // ----- append -----

  /** After `append`, `getAll` ends with the new value and other names are unaffected. */
  lemma AppendGetAll(ps: Params, name: string, value: string, other: string)
    ensures GetAll(Append(ps, name, value), name) == GetAll(ps, name) + [value]
    ensures other != name ==> GetAll(Append(ps, name, value), other) == GetAll(ps, other)
  {
    GetAllConcat(ps, [(name, value)], name);
    GetAllConcat(ps, [(name, value)], other);
  }

  // ----- delete -----

  /** After `delete`, no value remains under the name, and every other name keeps all its values. */
  lemma {:induction false} DeleteGetAll(ps: Params, name: string, other: string)
    ensures GetAll(Delete(ps, name), name) == []
    ensures other != name ==> GetAll(Delete(ps, name), other) == GetAll(ps, other)
  {
    GetAllAbsent(Delete(ps, name), name);
    if ps != [] {
      DeleteGetAll(ps[1..], name, other);
    }
  }

  /** `delete` keeps `get` of every other name. */
  lemma DeleteGet(ps: Params, name: string, other: string)
    requires other != name
    ensures Get(Delete(ps, name), other) == Get(ps, other)
  {
    DeleteGetAll(ps, name, other);
    GetIsFirstOfGetAll(ps, other);
    GetIsFirstOfGetAll(Delete(ps, name), other);
  }

  /** Deleting a name that is not there changes nothing. */
  lemma {:induction false} DeleteAbsent(ps: Params, name: string)
    requires !Has(ps, name)
    ensures Delete(ps, name) == ps
  {
    if ps != [] {
      DeleteAbsent(ps[1..], name);
    }
  }

  lemma {:induction false} DeleteDelete(ps: Params, a: string, b: string)
    ensures Delete(Delete(ps, a), b) == Delete(Delete(ps, b), a)
  {
    if ps != [] {
      DeleteDelete(ps[1..], a, b);
    }
  }

  // ----- set -----

  /** On a list without the name, `set` is `append`. */
  lemma SetAbsent(ps: Params, name: string, value: string)
    requires !Has(ps, name)
    ensures Set(ps, name, value) == ps + [(name, value)]
  {
  }

  lemma {:induction false} SetFirstDeleteOthers(ps: Params, name: string, value: string, other: string)
    requires Has(ps, name)
    ensures GetAll(SetFirst(ps, name, value), name) == [value]
    ensures other != name ==> GetAll(SetFirst(ps, name, value), other) == GetAll(ps, other)
    ensures Delete(SetFirst(ps, name, value), name) == Delete(ps, name)
  {
    if ps[0].0 == name {
      GetAllAbsent(Delete(ps[1..], name), name);
      DeleteGetAll(ps[1..], name, other);
      DeleteAbsent(Delete(ps[1..], name), name);
    } else {
      SetFirstDeleteOthers(ps[1..], name, value, other);
    }
  }

  /**
   * After `set`, the name holds exactly the one new value, every other name
   * keeps all its values, and the list without the name is what it was.
   */
  lemma SetGetAll(ps: Params, name: string, value: string, other: string)
    ensures GetAll(Set(ps, name, value), name) == [value]
    ensures Get(Set(ps, name, value), name) == Some(value)
    ensures other != name ==> GetAll(Set(ps, name, value), other) == GetAll(ps, other)
    ensures Delete(Set(ps, name, value), name) == Delete(ps, name)
  {
    if Has(ps, name) {
      SetFirstDeleteOthers(ps, name, value, other);
    } else {
      GetAllAbsent(ps, name);
      AppendGetAll(ps, name, value, other);
      DeleteAbsent(ps, name);
      assert Delete(ps + [(name, value)], name) == Delete(ps, name) by {
        DeleteConcat(ps, [(name, value)], name);
      }
    }
    GetIsFirstOfGetAll(Set(ps, name, value), name);
  }

  /** `set` keeps `get` of every other name. */
  lemma SetGet(ps: Params, name: string, value: string, other: string)
    requires other != name
    ensures Get(Set(ps, name, value), other) == Get(ps, other)
  {
    SetGetAll(ps, name, value, other);
    GetIsFirstOfGetAll(ps, other);
    GetIsFirstOfGetAll(Set(ps, name, value), other);
  }

  lemma {:induction false} DeleteConcat(a: Params, b: Params, name: string)
    ensures Delete(a + b, name) == Delete(a, name) + Delete(b, name)
  {
    if a != [] {
      assert (a + b)[0] == a[0] && (a + b)[1..] == a[1..] + b;
      DeleteConcat(a[1..], b, name);
    } else {
      assert a + b == b;
    }
  }

  /** Only the named entries are touched by `set`. */
  lemma SetKeepsOther(ps: Params, name: string, value: string, other: string)
    requires other != name
    ensures GetAll(Set(ps, name, value), other) == GetAll(ps, other)
  {
    SetGetAll(ps, name, value, other);
  }

  /** `set` leaves exactly the new value under the name. */
  lemma SetHolds(ps: Params, name: string, value: string)
    ensures GetAll(Set(ps, name, value), name) == [value]
    ensures Get(Set(ps, name, value), name) == Some(value)
  {
    SetGetAll(ps, name, value, name);
  }

  /** Only the named entries are touched by `delete`. */
  lemma DeleteKeepsOther(ps: Params, name: string, other: string)
    requires other != name
    ensures GetAll(Delete(ps, name), other) == GetAll(ps, other)
  {
    DeleteGetAll(ps, name, other);
  }
}
