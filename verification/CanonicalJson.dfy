/** JSON documents as written, their meaning, and the canonical form that is hashed. */
module CanonicalJson {
  import opened Text
  import opened Walks

  /** A document with its members in the order written; a name may occur more than once. */
  datatype Json = Null | Bool(b: bool) | Number(literal: string) | String(s: string) | Array(items: seq<Json>)
                | Object(members: seq<Member>)

  datatype Member = Member(name: string, value: Json)

  /** What a document says: members have no order, and of several with one name the last counts. */
  datatype Value = VNull | VBool(b: bool) | VNumber(literal: string) | VString(s: string) | VArray(items: seq<Value>)
                 | VObject(members: map<string, Value>)

  function Meaning(j: Json): Value
    decreases j
  {
    match j
    case Null => VNull
    case Bool(b) => VBool(b)
    case Number(n) => VNumber(n)
    case String(s) => VString(s)
    case Array(items) => VArray(seq(|items|, i requires 0 <= i < |items| => Meaning(items[i])))
    case Object(members) => VObject(MeaningOf(j, |members|))
  }

  /** The first n members. */
  function MeaningOf(j: Json, n: nat): map<string, Value>
    requires j.Object? && n <= |j.members|
    decreases j, n
  {
    if n == 0 then map[] else MeaningOf(j, n - 1)[j.members[n - 1].name := Meaning(j.members[n - 1].value)]
  }

  // ----- Canonical form: decode, then encode with sorted names -----

  function Put(members: seq<Member>, m: Member): seq<Member> {
    if |members| == 0 then [m]
    else if members[0].name == m.name then [m] + members[1..]
    else if Less(m.name, members[0].name) then [m] + members
    else [members[0]] + Put(members[1..], m)
  }

  function Canonical(j: Json): Json
    decreases j
  {
    match j
    case Array(items) => Array(seq(|items|, i requires 0 <= i < |items| => Canonical(items[i])))
    case Object(members) => Object(CanonicalOf(j, |members|))
    case _ => j
  }

  function CanonicalOf(j: Json, n: nat): seq<Member>
    requires j.Object? && n <= |j.members|
    decreases j, n
  {
    if n == 0 then []
    else Put(CanonicalOf(j, n - 1), Member(j.members[n - 1].name, Canonical(j.members[n - 1].value)))
  }

  predicate NamesSorted(members: seq<Member>) {
    forall i, j :: 0 <= i < j < |members| ==> Less(members[i].name, members[j].name)
  }

  /** Names in order and distinct, all the way down. */
  predicate IsCanonical(j: Json)
    decreases j
  {
    match j
    case Array(items) => forall i :: 0 <= i < |items| ==> IsCanonical(items[i])
    case Object(members) => NamesSorted(members) && forall i :: 0 <= i < |members| ==> IsCanonical(members[i].value)
    case _ => true
  }

  // ----- Put -----

  lemma {:induction false} PutHas(members: seq<Member>, m: Member)
    ensures forall x :: x in Put(members, m) ==> x == m || x in members
    ensures m in Put(members, m)
  {
    if |members| > 0 && members[0].name != m.name && !Less(m.name, members[0].name) { PutHas(members[1..], m); }
  }

  lemma {:induction false} PutSorts(members: seq<Member>, m: Member)
    requires NamesSorted(members)
    ensures NamesSorted(Put(members, m))
  {
    if |members| > 0 && members[0].name != m.name {
      LessTotal(m.name, members[0].name);
      if Less(m.name, members[0].name) {
        forall i | 0 < i < |members| ensures Less(m.name, members[i].name) {
          LessTransitive(m.name, members[0].name, members[i].name);
        }
      } else {
        PutSorts(members[1..], m);
        PutHas(members[1..], m);
        var rest := Put(members[1..], m);
        forall i | 0 <= i < |rest| ensures Less(members[0].name, rest[i].name) { assert rest[i] in rest; }
      }
    }
  }

  /** A sorted list of members read as a table. */
  function Table(members: seq<Member>): map<string, Json> {
    if |members| == 0 then map[] else Table(members[..|members| - 1])[members[|members| - 1].name := members[|members| - 1].value]
  }

  lemma {:induction false} TableHas(members: seq<Member>, i: nat)
    requires NamesSorted(members) && i < |members|
    ensures members[i].name in Table(members) && Table(members)[members[i].name] == members[i].value
  {
    var n := |members| - 1;
    if i < n {
      TableHas(members[..n], i);
      LessIrreflexive(members[i].name);
    }
  }

  lemma {:induction false} TableNames(members: seq<Member>)
    ensures forall k :: k in Table(members) <==> exists i :: 0 <= i < |members| && members[i].name == k
  {
    if |members| > 0 {
      var front := members[..|members| - 1];
      TableNames(front);
      forall k ensures k in Table(members) <==> exists i :: 0 <= i < |members| && members[i].name == k {
        if i :| 0 <= i < |members| && members[i].name == k {
          if i < |front| { assert front[i].name == k; }
        }
      }
    }
  }

  lemma TableOf(members: seq<Member>, x: Member)
    requires NamesSorted(members) && x in members
    ensures x.name in Table(members) && Table(members)[x.name] == x.value
  {
    var i :| 0 <= i < |members| && members[i] == x;
    TableHas(members, i);
  }

  lemma TableBack(members: seq<Member>, k: string)
    requires NamesSorted(members) && k in Table(members)
    ensures Member(k, Table(members)[k]) in members
  {
    TableNames(members);
    var i :| 0 <= i < |members| && members[i].name == k;
    TableHas(members, i);
  }

  lemma PutTable(members: seq<Member>, m: Member)
    requires NamesSorted(members)
    ensures Table(Put(members, m)) == Table(members)[m.name := m.value]
  {
    hide NamesSorted, Table, Put;
    var r := Put(members, m);
    PutSorts(members, m);
    PutHas(members, m);
    PutKeeps(members, m);
    var after := Table(members)[m.name := m.value];
    TableOf(r, m);
    forall k | k in Table(r) ensures k in after && after[k] == Table(r)[k] {
      TableBack(r, k);
      if k != m.name { TableOf(members, Member(k, Table(r)[k])); }
    }
    forall k | k in after ensures k in Table(r) {
      if k != m.name {
        TableBack(members, k);
        TableOf(r, Member(k, Table(members)[k]));
      }
    }
  }

  lemma {:induction false} PutKeeps(members: seq<Member>, m: Member)
    ensures forall x :: x in members && x.name != m.name ==> x in Put(members, m)
  {
    if |members| > 0 && members[0].name != m.name && !Less(m.name, members[0].name) { PutKeeps(members[1..], m); }
  }

  // ----- The canonical form says the same -----

  function Means(table: map<string, Json>): map<string, Value> { map k | k in table :: Meaning(table[k]) }

  lemma {:induction false} MeaningIsTable(j: Json, n: nat)
    requires j.Object? && n <= |j.members|
    ensures MeaningOf(j, n) == Means(Table(j.members[..n]))
  {
    hide Meaning;
    if n > 0 {
      MeaningIsTable(j, n - 1);
      assert j.members[..n][..n - 1] == j.members[..n - 1];
    }
  }

  lemma {:induction false} CanonicalTable(j: Json, n: nat)
    requires j.Object? && n <= |j.members|
    ensures NamesSorted(CanonicalOf(j, n))
    ensures Table(CanonicalOf(j, n)) == map k | k in Table(j.members[..n]) :: Canonical(Table(j.members[..n])[k])
  {
    hide Canonical, Put, NamesSorted;
    if n == 0 {
      NothingSorted();
    } else {
      CanonicalTable(j, n - 1);
      assert j.members[..n][..n - 1] == j.members[..n - 1];
      var m := Member(j.members[n - 1].name, Canonical(j.members[n - 1].value));
      PutSorts(CanonicalOf(j, n - 1), m);
      PutTable(CanonicalOf(j, n - 1), m);
    }
  }

  lemma NothingSorted()
    ensures NamesSorted([])
  {
  }

  lemma TableValue(members: seq<Member>, k: string) returns (i: nat)
    requires k in Table(members)
    ensures i < |members| && members[i].name == k && members[i].value == Table(members)[k]
  {
    var n := |members| - 1;
    if members[n].name == k { i := n; } else { i := TableValue(members[..n], k); }
  }

  /** Canonical form keeps the meaning, whatever the order of members and however often a name is repeated. */
  lemma {:induction false} CanonicalSaysTheSame(j: Json)
    ensures Meaning(Canonical(j)) == Meaning(j)
    decreases j
  {
    if j.Array? {
      forall i | 0 <= i < |j.items| ensures Meaning(Canonical(j.items[i])) == Meaning(j.items[i]) {
        CanonicalSaysTheSame(j.items[i]);
      }
    } else if j.Object? {
      forall i | 0 <= i < |j.members| ensures Meaning(Canonical(j.members[i].value)) == Meaning(j.members[i].value) {
        CanonicalSaysTheSame(j.members[i].value);
      }
      ObjectSaysTheSame(j);
    }
  }

  lemma ObjectSaysTheSame(j: Json)
    requires j.Object?
    requires forall i :: 0 <= i < |j.members| ==> Meaning(Canonical(j.members[i].value)) == Meaning(j.members[i].value)
    ensures Meaning(Canonical(j)) == Meaning(j)
  {
    hide Canonical, Meaning, Table;
    var c := CanonicalOf(j, |j.members|);
    assert j.members[..|j.members|] == j.members && c[..|c|] == c;
    CanonicalTable(j, |j.members|);
    MeaningIsTable(j, |j.members|);
    MeaningIsTable(Object(c), |c|);
    forall k | k in Table(j.members) ensures Meaning(Canonical(Table(j.members)[k])) == Meaning(Table(j.members)[k]) {
      var i := TableValue(j.members, k);
    }
    assert Means(Table(c)) == Means(Table(j.members));
    ObjectForms(j);
    ObjectForms(Object(c));
  }

  lemma ObjectForms(j: Json)
    requires j.Object?
    ensures Canonical(j) == Object(CanonicalOf(j, |j.members|)) && Meaning(j) == VObject(MeaningOf(j, |j.members|))
  {
  }

  // ----- One canonical form per meaning -----

  lemma {:induction false} CanonicalIsCanonical(j: Json)
    ensures IsCanonical(Canonical(j))
    decreases j
  {
    if j.Array? {
      forall i | 0 <= i < |j.items| ensures IsCanonical(Canonical(j.items[i])) { CanonicalIsCanonical(j.items[i]); }
    } else if j.Object? {
      forall i | 0 <= i < |j.members| ensures IsCanonical(Canonical(j.members[i].value)) {
        CanonicalIsCanonical(j.members[i].value);
      }
      CanonicalTable(j, |j.members|);
      MembersCanonical(j, |j.members|);
    }
  }

  lemma {:induction false} MembersCanonical(j: Json, n: nat)
    requires j.Object? && n <= |j.members|
    requires forall i :: 0 <= i < |j.members| ==> IsCanonical(Canonical(j.members[i].value))
    ensures forall x :: x in CanonicalOf(j, n) ==> IsCanonical(x.value)
  {
    hide Canonical, IsCanonical, Put;
    if n > 0 {
      MembersCanonical(j, n - 1);
      PutHas(CanonicalOf(j, n - 1), Member(j.members[n - 1].name, Canonical(j.members[n - 1].value)));
    }
  }

  function Names(members: seq<Member>): seq<string> {
    seq(|members|, i requires 0 <= i < |members| => members[i].name)
  }

  /** Two canonical objects with the same meaning list the same names, and values with the same meaning under each. */
  lemma SameNames(a: Json, b: Json)
    requires a.Object? && b.Object? && NamesSorted(a.members) && NamesSorted(b.members) && Meaning(a) == Meaning(b)
    ensures Names(a.members) == Names(b.members)
    ensures forall i :: 0 <= i < |a.members| ==> Meaning(a.members[i].value) == Meaning(b.members[i].value)
  {
    hide Meaning, Table, NamesSorted;
    ObjectForms(a);
    ObjectForms(b);
    var s, t := a.members, b.members;
    assert s[..|s|] == s && t[..|t|] == t;
    MeaningIsTable(a, |s|);
    MeaningIsTable(b, |t|);
    NamesAre(s);
    NamesAre(t);
    assert Table(s).Keys == Means(Table(s)).Keys == Means(Table(t)).Keys == Table(t).Keys;
    SortedUnique(Names(s), Names(t));
    forall i | 0 <= i < |s| ensures Meaning(s[i].value) == Meaning(t[i].value) {
      assert Names(s)[i] == s[i].name && Names(t)[i] == t[i].name;
      TableHas(s, i);
      TableHas(t, i);
      assert Means(Table(s))[s[i].name] == Means(Table(t))[t[i].name];
    }
  }

  lemma NamesAre(members: seq<Member>)
    requires NamesSorted(members)
    ensures StrictlySorted(Names(members)) && Elements(Names(members)) == Table(members).Keys && |Names(members)| == |members|
  {
    TableNames(members);
    forall k ensures k in Elements(Names(members)) <==> k in Table(members) {
      if k in Table(members) {
        var i :| 0 <= i < |members| && members[i].name == k;
        assert Names(members)[i] == k;
      }
    }
  }

  lemma {:induction false} CanonicalUnique(a: Json, b: Json)
    requires IsCanonical(a) && IsCanonical(b) && Meaning(a) == Meaning(b)
    ensures a == b
    decreases a
  {
    if a.Array? {
      var x, y := Meaning(a).items, Meaning(b).items;
      forall i | 0 <= i < |a.items| ensures a.items[i] == b.items[i] {
        assert x[i] == Meaning(a.items[i]) && y[i] == Meaning(b.items[i]);
        CanonicalUnique(a.items[i], b.items[i]);
      }
    } else if a.Object? {
      SameNames(a, b);
      forall i | 0 <= i < |a.members| ensures a.members[i] == b.members[i] {
        assert Names(a.members)[i] == Names(b.members)[i];
        CanonicalUnique(a.members[i].value, b.members[i].value);
      }
      assert |Names(a.members)| == |Names(b.members)|;
    }
  }

  /** Documents have the same canonical form exactly when they say the same. */
  lemma CanonicalFormDecidesMeaning(a: Json, b: Json)
    ensures Canonical(a) == Canonical(b) <==> Meaning(a) == Meaning(b)
  {
    CanonicalSaysTheSame(a);
    CanonicalSaysTheSame(b);
    CanonicalIsCanonical(a);
    CanonicalIsCanonical(b);
    if Meaning(a) == Meaning(b) { CanonicalUnique(Canonical(a), Canonical(b)); }
  }

  /** Canonicalising again changes nothing. */
  lemma CanonicalTwice(j: Json)
    ensures Canonical(Canonical(j)) == Canonical(j)
  {
    CanonicalSaysTheSame(j);
    CanonicalFormDecidesMeaning(Canonical(j), j);
  }

  // ----- What a database that rewrites number literals keeps -----

  function Renumbered(number: string -> string, v: Value): Value
    decreases v
  {
    match v
    case VNumber(n) => VNumber(number(n))
    case VArray(items) => VArray(seq(|items|, i requires 0 <= i < |items| => Renumbered(number, items[i])))
    case VObject(members) => VObject(map k | k in members :: Renumbered(number, members[k]))
    case _ => v
  }

  /** Every number in the value is one the database prints as it was given. */
  predicate NumbersKept(number: string -> string, v: Value)
    decreases v
  {
    match v
    case VNumber(n) => number(n) == n
    case VArray(items) => forall i :: 0 <= i < |items| ==> NumbersKept(number, items[i])
    case VObject(members) => forall k :: k in members ==> NumbersKept(number, members[k])
    case _ => true
  }

  lemma {:induction false} KeptNumbersKeepValue(number: string -> string, v: Value)
    ensures Renumbered(number, v) == v <==> NumbersKept(number, v)
    decreases v
  {
    if v.VArray? {
      var after := Renumbered(number, v).items;
      forall i | 0 <= i < |v.items| ensures after[i] == v.items[i] <==> NumbersKept(number, v.items[i]) {
        KeptNumbersKeepValue(number, v.items[i]);
      }
    } else if v.VObject? {
      var after := Renumbered(number, v).members;
      forall k | k in v.members ensures after[k] == v.members[k] <==> NumbersKept(number, v.members[k]) {
        KeptNumbersKeepValue(number, v.members[k]);
      }
    }
  }

  /** The document with every number literal rewritten in place. */
  function Reprinted(number: string -> string, j: Json): Json
    decreases j
  {
    match j
    case Number(n) => Number(number(n))
    case Array(items) => Array(seq(|items|, i requires 0 <= i < |items| => Reprinted(number, items[i])))
    case Object(members) =>
      Object(seq(|members|, i requires 0 <= i < |members| => Member(members[i].name, Reprinted(number, members[i].value))))
    case _ => j
  }

  lemma {:induction false} ReprintedMeans(number: string -> string, j: Json)
    ensures Meaning(Reprinted(number, j)) == Renumbered(number, Meaning(j))
    decreases j
  {
    if j.Array? {
      forall i | 0 <= i < |j.items| ensures Meaning(Reprinted(number, j.items[i])) == Renumbered(number, Meaning(j.items[i])) {
        ReprintedMeans(number, j.items[i]);
      }
    } else if j.Object? {
      ReprintedMembers(number, j, |j.members|);
    }
  }

  lemma {:induction false} ReprintedMembers(number: string -> string, j: Json, n: nat)
    requires j.Object? && n <= |j.members|
    ensures MeaningOf(Reprinted(number, j), n) == map k | k in MeaningOf(j, n) :: Renumbered(number, MeaningOf(j, n)[k])
    decreases j, n
  {
    if n > 0 {
      ReprintedMembers(number, j, n - 1);
      ReprintedMeans(number, j.members[n - 1].value);
      var m := Reprinted(number, j).members[n - 1];
      assert m == Member(j.members[n - 1].name, Reprinted(number, j.members[n - 1].value));
      hide Meaning, Renumbered, Reprinted;
    }
  }
}
