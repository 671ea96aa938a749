/** Vocabulary shared by the storefront's models and route handlers:
    identifiers, the optional and result wrappers, the failure replies of the
    REST handlers, JavaScript string truthiness, and the pagination arithmetic
    the list handlers share. */
module Common {

  type UserId = string
  type ProductId = string
  type OrderId = string
  type CategoryId = string

  datatype Option<+T> = None | Some(value: T)

  /** The error replies of the handlers: 400, 403, 404 and 500. */
  datatype Failure = BadRequest | Forbidden | NotFound | ServerError

  datatype Result<+T> = Ok(value: T) | Err(failure: Failure)

  /** The role recorded on a user account: 'user', 'seller' or 'admin'. */
  datatype Role = Customer | Seller | Admin

  /** A variant selection `{ name, option }` carried by cart and order lines. */
  datatype VariantChoice = VariantChoice(name: string, option: string)

  /** JavaScript truthiness of an optional string: present and not empty. */
  predicate Truthy(s: Option<string>)
  {
    s.Some? && s.value != ""
  }

  /** The elements of `s` that `keep` accepts, in their original order
      (`Array.prototype.filter`). */
  function Filter<T>(s: seq<T>, keep: T -> bool): (r: seq<T>)
    ensures |r| <= |s|
    ensures forall i :: 0 <= i < |r| ==> r[i] in s && keep(r[i])
    ensures forall i :: 0 <= i < |s| && keep(s[i]) ==> s[i] in r
  {
    if s == [] then []
    else if keep(s[0]) then [s[0]] + Filter(s[1..], keep)
    else Filter(s[1..], keep)
  }

  /** Filtering a concatenation filters each part in turn. With FilterSingle
      this fixes Filter completely: the accepted elements stay in their
      original order, each as often as it occurs. */
  lemma {:induction false} FilterAppend<T>(a: seq<T>, b: seq<T>, keep: T -> bool)
    ensures Filter(a + b, keep) == Filter(a, keep) + Filter(b, keep)
  {
    if a == [] {
      assert a + b == b;
    } else {
      assert (a + b)[0] == a[0] && (a + b)[1..] == a[1..] + b;
      FilterAppend(a[1..], b, keep);
    }
  }

  /** One element is kept exactly when it is accepted. */
  lemma {:induction false} FilterSingle<T>(x: T, keep: T -> bool)
    ensures Filter([x], keep) == if keep(x) then [x] else []
  {
    assert [x][1..] == [];
  }

  /** Whatever holds of every element of a sequence holds of every element
      filtering keeps. */
  lemma {:induction false} FilterPreserves<T>(s: seq<T>, keep: T -> bool, holds: T -> bool)
    requires forall i :: 0 <= i < |s| ==> holds(s[i])
    ensures forall i :: 0 <= i < |Filter(s, keep)| ==> holds(Filter(s, keep)[i])
  {
    if s != [] {
      FilterPreserves(s[1..], keep, holds);
      assert keep(s[0]) ==> Filter(s, keep) == [s[0]] + Filter(s[1..], keep);
    }
  }

  /** When every element is accepted, filtering changes nothing. */
  lemma {:induction false} FilterKeepsAll<T>(s: seq<T>, keep: T -> bool)
    requires forall i :: 0 <= i < |s| ==> keep(s[i])
    ensures Filter(s, keep) == s
  {
    if s != [] {
      FilterKeepsAll(s[1..], keep);
    }
  }

  /** `Math.ceil(total / limit)` as the list handlers report `pagination.pages`;
      None stands for the non-finite results of a zero limit (Infinity, NaN). */
  function Pages(total: nat, limit: int): (r: Option<int>)
    ensures r.None? <==> limit == 0
    ensures limit > 0 ==> r.Some? && r.value >= 0 && r.value * limit >= total && (r.value - 1) * limit < total
    ensures limit < 0 ==> r.Some? && r.value <= 0 && r.value * limit <= total && (r.value - 1) * limit > total
  {
    if limit > 0 then
      var n := (total + limit - 1) / limit;
      assert n * limit + (total + limit - 1) % limit == total + limit - 1;
      assert (n - 1) * limit == n * limit - limit;
      Some(n)
    else if limit < 0 then
      NegatedFloorIsCeiling(total, -limit);
      Some(-(total / -limit))
    else None
  }

  /** `-(total div m)` is the ceiling of `total / -m`: the least count `c`
      with `c * -m <= total`. */
  lemma {:induction false} NegatedFloorIsCeiling(total: nat, m: int)
    requires m > 0
    ensures var c := -(total / m);
            c <= 0 && c * -m <= total && (c - 1) * -m > total
  {
    var q := total / m;
    assert q * m + total % m == total;
    assert -q * -m == q * m;
    assert (-q - 1) * -m == q * m + m;
  }

  /** What `.skip(skip).limit(limit)` returns from results already in sort
      order: a negative skip is refused by the database, a zero limit means no
      limit and a negative one is read as its absolute value. */
  function Window<T>(s: seq<T>, skip: int, limit: int): (r: Result<seq<T>>)
    ensures r.Err? <==> skip < 0
    ensures r.Err? ==> r.failure == ServerError
    ensures r.Ok? ==> var from := if skip < |s| then skip else |s|;
                      var cap := if limit < 0 then -limit else limit;
                      (limit == 0 ==> |r.value| == |s| - from) &&
                      (limit != 0 ==> |r.value| == if cap < |s| - from then cap else |s| - from) &&
                      r.value == s[from..from + |r.value|]
  {
    if skip < 0 then Err(ServerError)
    else
      var from := if skip < |s| then skip else |s|;
      var n := if limit == 0 then |s| - from else if limit < 0 then -limit else limit;
      var to := if from + n < |s| then from + n else |s|;
      Ok(s[from..to])
  }

  /** Every element is found on the page its position determines: with a
      positive limit, element `i` is entry `i % limit` of the window that
      skips `(i / limit) * limit` elements. */
  lemma {:induction false} WindowFinds<T>(s: seq<T>, limit: int, i: int)
    requires limit > 0 && 0 <= i < |s|
    ensures var w := Window(s, (i / limit) * limit, limit);
            w.Ok? && i % limit < |w.value| && w.value[i % limit] == s[i]
  {
    var from := (i / limit) * limit;
    assert from + i % limit == i;
    assert 0 <= from;
    var w := Window(s, from, limit).value;
    assert w == s[from..from + |w|];
  }

  /** Whatever holds of every element of a sequence holds of every element
      of a window cut from it. */
  lemma {:induction false} WindowKeeps<T>(s: seq<T>, skip: int, limit: int, keep: T -> bool)
    requires Window(s, skip, limit).Ok?
    requires forall i :: 0 <= i < |s| ==> keep(s[i])
    ensures forall i :: 0 <= i < |Window(s, skip, limit).value| ==> keep(Window(s, skip, limit).value[i])
  {
    var w := Window(s, skip, limit).value;
    var from := if skip < |s| then skip else |s|;
    forall i | 0 <= i < |w| ensures keep(w[i]) {
      assert w[i] == s[from + i];
    }
  }

  /** The authorization of the product update and delete handlers and of the
      order view: the owner passes, and so does an admin. */
  function OwnerOrAdmin(owner: UserId, requester: UserId, role: Role): (r: Result<()>)
    ensures r.Ok? <==> owner == requester || role == Admin
    ensures r.Err? ==> r.failure == Forbidden
  {
    if owner == requester || role == Admin then Ok(()) else Err(Forbidden)
  }

  /** The same check as the source writes it: for a requester other than the
      owner it calls `User.findById`, but `User` is never imported, so the call
      throws and the handler answers 500 whatever the requester's role. */
  function OwnerOrAdminAsWritten(owner: UserId, requester: UserId, role: Role): (r: Result<()>)
    ensures r.Ok? <==> owner == requester
    ensures r.Err? ==> r.failure == ServerError
  {
    if owner == requester then Ok(()) else Err(ServerError)
  }

  /** The discrepancy: an admin who does not own the resource is refused with
      500 as written, and admitted by the intended check. */
  lemma {:induction false} AdminLockedOutAsWritten(owner: UserId, requester: UserId)
    requires owner != requester
    ensures OwnerOrAdminAsWritten(owner, requester, Admin) == Err(ServerError)
    ensures OwnerOrAdmin(owner, requester, Admin) == Ok(())
  {
  }

  /** The admin check of the order status update. */
  function AdminOnly(role: Role): (r: Result<()>)
    ensures r.Ok? <==> role == Admin
    ensures r.Err? ==> r.failure == Forbidden
  {
    if role == Admin then Ok(()) else Err(Forbidden)
  }

  /** The same check as the source writes it: `User.findById` throws because
      `User` is never imported, so every request ends in 500 before the role
      is looked at. */
  function AdminOnlyAsWritten(role: Role): (r: Result<()>)
    ensures r.Err? && r.failure == ServerError
  {
    Err(ServerError)
  }

  /** The discrepancy: no role, not even admin, gets past the check as
      written, while the intended check admits exactly the admins. */
  lemma {:induction false} StatusUpdateUnreachableAsWritten(role: Role)
    ensures AdminOnlyAsWritten(role) == Err(ServerError)
    ensures AdminOnly(Admin) == Ok(()) && AdminOnly(role).Err? == (role != Admin)
  {
  }

  /** The `pagination` block of a list reply together with the page itself. */
  datatype Page<T> = Page(items: seq<T>, current: int, pages: Option<int>, total: nat, limit: int)
}
