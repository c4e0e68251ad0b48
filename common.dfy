/** Shared vocabulary of the services: optional values, the errors the services
    raise, and the sequence and map folds that the ORM queries and the
    JavaScript `filter`/`reduce`/`forEach` calls amount to. */
module Common {

  datatype Option<T> = None | Some(value: T)

  /** JavaScript truthiness of a nullable string: `null`, `undefined` and `''` are falsy. */
  predicate Truthy(s: Option<string>) {
    s.Some? && s.value != ""
  }

  /** Every exception a core service method throws, named after its throw site. */
  datatype Error =
    | UserNotFound          // BadRequestException('User not found')
    | InsufficientCandy     // BadRequestException('Insufficient candy balance')
    | ChildNotFound         // plain Error('Child not found')
    | QuestionNotFound      // TypeError: a property read on a question that findOne did not find
    | NoAttempts            // plain Error: the child has no quiz attempts
    | RequestNotFound       // NotFoundException: no such mentoring request
    | CancelNotPending      // BadRequestException: only pending requests can be cancelled
    | AdminNotPending       // BadRequestException: only pending requests can be matched/rejected
    | InvalidAmount         // BadRequestException('Invalid amount')
    | PaymentNotFound       // NotFoundException('Payment request not found.')
    | PaymentNotPending     // BadRequestException('Payment request is not in PENDING status.')

  datatype Result<T> = Ok(value: T) | Err(error: Error)

  /** `{ success, message }`; the message text is not modelled. */
  datatype Ack = Ack(success: bool)

  // ---------------------------------------------------------------------
  // Sequences. Every fold recurses on the LAST element, so that a loop over
  // a prefix `s[..i]` steps from one value of the fold to the next.
  // ---------------------------------------------------------------------

  /** The elements of `s` satisfying `p`, in their order in `s` (`Array.filter`, or a `where` clause). */
  function Filter<T(!new)>(s: seq<T>, p: T -> bool): (r: seq<T>)
    ensures |r| <= |s|
    ensures forall x :: x in r <==> x in s && p(x)
    ensures forall i :: 0 <= i < |r| ==> p(r[i])
    decreases |s|
  {
    if s == [] then []
    else Filter(s[..|s| - 1], p) + (if p(s[|s| - 1]) then [s[|s| - 1]] else [])
  }

  lemma FilterAppend<T(!new)>(s: seq<T>, x: T, p: T -> bool)
    ensures Filter(s + [x], p) == Filter(s, p) + (if p(x) then [x] else [])
  {
    assert (s + [x])[..|s + [x]| - 1] == s;
  }

  /** Filtering by `p` and by its negation splits the sequence. */
  lemma {:induction false} FilterComplement<T(!new)>(s: seq<T>, p: T -> bool, q: T -> bool)
    requires forall x :: q(x) == !p(x)
    ensures |Filter(s, p)| + |Filter(s, q)| == |s|
    decreases |s|
  {
    if s != [] {
      FilterComplement(s[..|s| - 1], p, q);
    }
  }

  /** `s` is strictly increasing in `key` (ids handed out in creation order). */
  ghost predicate StrictlyIncreasing<T>(s: seq<T>, key: T -> int) {
    forall i, j :: 0 <= i < j < |s| ==> key(s[i]) < key(s[j])
  }

  ghost predicate StrictlyDecreasing<T>(s: seq<T>, key: T -> int) {
    forall i, j :: 0 <= i < j < |s| ==> key(s[i]) > key(s[j])
  }

  /** A filter keeps the relative order of what it keeps. */
  lemma {:induction false} FilterKeepsOrder<T(!new)>(s: seq<T>, p: T -> bool, key: T -> int)
    requires StrictlyIncreasing(s, key)
    ensures StrictlyIncreasing(Filter(s, p), key)
    decreases |s|
  {
    if s != [] {
      var init, last := s[..|s| - 1], s[|s| - 1];
      FilterKeepsOrder(init, p, key);
      var f := Filter(init, p);
      forall x | x in f ensures key(x) < key(last) {
        var k :| 0 <= k < |init| && init[k] == x;
        assert s[k] == x;
      }
    }
  }

  /** The elements of `s` in the opposite order (an ORDER BY ... DESC over a table kept in ascending order). */
  function Reverse<T>(s: seq<T>): (r: seq<T>)
    ensures |r| == |s|
    ensures forall i :: 0 <= i < |s| ==> r[i] == s[|s| - 1 - i]
    decreases |s|
  {
    if s == [] then [] else [s[|s| - 1]] + Reverse(s[..|s| - 1])
  }

  lemma ReverseFlipsOrder<T>(s: seq<T>, key: T -> int)
    requires StrictlyIncreasing(s, key)
    ensures StrictlyDecreasing(Reverse(s), key)
    ensures forall x :: x in Reverse(s) <==> x in s
  {
    var r := Reverse(s);
    forall x | x in s ensures x in r {
      var k :| 0 <= k < |s| && s[k] == x;
      assert r[|s| - 1 - k] == x;
    }
  }

  /** `reduce((acc, x) => acc + f(x), 0)`. */
  function SumOf<T>(s: seq<T>, f: T -> int): int
    decreases |s|
  {
    if s == [] then 0 else SumOf(s[..|s| - 1], f) + f(s[|s| - 1])
  }

  lemma SumOfAppend<T>(s: seq<T>, x: T, f: T -> int)
    ensures SumOf(s + [x], f) == SumOf(s, f) + f(x)
  {
    assert (s + [x])[..|s + [x]| - 1] == s;
  }

  /** A sum of non-negative terms is non-negative. */
  lemma {:induction false} SumOfNonNegative<T>(s: seq<T>, f: T -> int)
    ensures (forall x :: x in s ==> f(x) >= 0) ==> SumOf(s, f) >= 0
    decreases |s|
  {
    if s != [] {
      SumOfNonNegative(s[..|s| - 1], f);
    }
  }

  // ---------------------------------------------------------------------
  // Counting dictionaries: `m[key(x)] = (m[key(x)] || 0) + 1` over a list.
  // ---------------------------------------------------------------------

  /** The dictionary built by counting the elements of `s` under `key`. */
  function Tally<T(!new), K>(s: seq<T>, key: T -> K): (m: map<K, nat>)
    ensures m.Keys == set x | x in s :: key(x)
    decreases |s|
  {
    if s == [] then map[]
    else
      var m := Tally(s[..|s| - 1], key);
      var k := key(s[|s| - 1]);
      assert forall x :: x in s <==> x in s[..|s| - 1] || x == s[|s| - 1];
      m[k := (if k in m then m[k] else 0) + 1]
  }

  /** One more element bumps its key's count by one. */
  lemma TallyAppend<T(!new), K>(s: seq<T>, x: T, key: T -> K)
    ensures Tally(s + [x], key) == Tally(s, key)[key(x) := (if key(x) in Tally(s, key) then Tally(s, key)[key(x)] else 0) + 1]
  {
    assert (s + [x])[..|s + [x]| - 1] == s;
  }

  /** The number of elements of `s` whose key is `k`: the reference meaning of a tally entry. */
  function CountKey<T, K(==)>(s: seq<T>, key: T -> K, k: K): nat
    decreases |s|
  {
    if s == [] then 0
    else CountKey(s[..|s| - 1], key, k) + (if key(s[|s| - 1]) == k then 1 else 0)
  }

  lemma {:induction false} TallyCounts<T(!new), K>(s: seq<T>, key: T -> K, k: K)
    ensures k in Tally(s, key) ==> Tally(s, key)[k] == CountKey(s, key, k)
    ensures k !in Tally(s, key) ==> CountKey(s, key, k) == 0
    decreases |s|
  {
    if s != [] {
      TallyCounts(s[..|s| - 1], key, k);
    }
  }

  /** The sum of the values of a map, taken over its keys in an arbitrary order. */
  ghost function SumValues<K>(m: map<K, nat>): nat
    decreases |m|
  {
    if m == map[] then 0
    else
      var k :| k in m;
      m[k] + SumValues(m - {k})
  }

  /** The sum does not depend on which key is taken out first. */
  lemma {:induction false} SumValuesRemove<K>(m: map<K, nat>, k: K)
    requires k in m
    ensures SumValues(m) == m[k] + SumValues(m - {k})
    decreases |m|
  {
    var j :| j in m && SumValues(m) == m[j] + SumValues(m - {j});
    if j != k {
      assert |m - {j}| == |m| - 1;
      SumValuesRemove(m - {j}, k);
      assert |m - {k}| == |m| - 1;
      SumValuesRemove(m - {k}, j);
      assert m - {j} - {k} == m - {k} - {j};
    }
  }

  lemma SumValuesBump<K>(m: map<K, nat>, k: K)
    ensures SumValues(m[k := (if k in m then m[k] else 0) + 1]) == SumValues(m) + 1
  {
    var m' := m[k := (if k in m then m[k] else 0) + 1];
    SumValuesRemove(m', k);
    if k in m {
      SumValuesRemove(m, k);
      assert m' - {k} == m - {k};
    } else {
      assert m' - {k} == m;
    }
  }

  /** Counting every element once: the values of a tally add up to the length of the list. */
  lemma {:induction false} TallySum<T(!new), K>(s: seq<T>, key: T -> K)
    ensures SumValues(Tally(s, key)) == |s|
    decreases |s|
  {
    if s != [] {
      TallySum(s[..|s| - 1], key);
      SumValuesBump(Tally(s[..|s| - 1], key), key(s[|s| - 1]));
    }
  }

  /** `s` numbers its rows 1, 2, 3, ... in order: an autoincrement primary key on a table without deletions. */
  ghost predicate Numbered<T>(rows: seq<T>, id: T -> int) {
    forall i :: 0 <= i < |rows| ==> id(rows[i]) == i + 1
  }

  /** `findOne({ where: { id } })` on a numbered table. */
  function FindById<T>(rows: seq<T>, id: T -> int, key: int): (r: Option<T>)
    requires Numbered(rows, id)
    ensures r.Some? <==> exists i :: 0 <= i < |rows| && id(rows[i]) == key
    ensures r.Some? ==> id(r.value) == key && r.value == rows[key - 1]
  {
    if 1 <= key <= |rows| then Some(rows[key - 1]) else None
  }

  lemma NumberedIncreasing<T>(rows: seq<T>, id: T -> int)
    requires Numbered(rows, id)
    ensures StrictlyIncreasing(rows, id)
  {
  }

  lemma NumberedAppend<T>(rows: seq<T>, x: T, id: T -> int)
    requires Numbered(rows, id) && id(x) == |rows| + 1
    ensures Numbered(rows + [x], id)
  {
  }

  lemma NumberedUpdate<T>(rows: seq<T>, i: nat, x: T, id: T -> int)
    requires Numbered(rows, id) && i < |rows| && id(x) == id(rows[i])
    ensures Numbered(rows[i := x], id)
  {
  }
}
