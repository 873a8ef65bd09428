/**
 * The fingerprint of an account set: decimal numbers, separators and joins, and what equal fingerprints
 * say about the sets.
 */
module Signatures {

  /** What the fingerprint sees of an account; an unknown expiry counts as 0. */
  datatype Triple = Triple(ctid: nat, tokenId: string, expiry: int)

  function Digit(d: nat): char
    requires d < 10
  {
    "0123456789"[d]
  }

  function Decimal(n: nat): string {
    if n < 10 then [Digit(n)] else Decimal(n / 10) + [Digit(n % 10)]
  }

  function Signed(n: int): string {
    if n < 0 then "-" + Decimal(-n) else Decimal(n)
  }

  function Entry(t: Triple): string {
    Decimal(t.ctid) + ":" + t.tokenId + ":" + Signed(t.expiry)
  }

  function Join(es: seq<string>): string {
    if es == [] then "" else if |es| == 1 then es[0] else es[0] + "|" + Join(es[1..])
  }

  function Insert(t: Triple, ts: seq<Triple>): seq<Triple> {
    if ts == [] || t.ctid < ts[0].ctid then [t] + ts else [ts[0]] + Insert(t, ts[1..])
  }

  /** Stable sort by ctid. */
  function Sorted(ts: seq<Triple>): seq<Triple>
    decreases |ts|
  {
    if ts == [] then [] else Insert(ts[|ts| - 1], Sorted(ts[..|ts| - 1]))
  }

  function Entries(ts: seq<Triple>): seq<string> {
    seq(|ts|, i requires 0 <= i < |ts| => Entry(ts[i]))
  }

  function Signature(ts: seq<Triple>): string {
    Join(Entries(Sorted(ts)))
  }

  // ---- numbers ----

  lemma DigitInjective(a: nat, b: nat)
    requires a < 10 && b < 10 && Digit(a) == Digit(b)
    ensures a == b
  {
    assert forall i, j :: 0 <= i < j < 10 ==> "0123456789"[i] != "0123456789"[j];
  }

  /** Digits only, and at least one. */
  lemma {:induction false} DecimalDigits(n: nat)
    ensures |Decimal(n)| > 0 && (n >= 10 ==> |Decimal(n)| > 1)
    ensures forall c :: c in Decimal(n) ==> '0' <= c <= '9'
    decreases n
  {
    if n >= 10 { DecimalDigits(n / 10); }
  }

  lemma {:induction false} DecimalInjective(n: nat, m: nat)
    requires Decimal(n) == Decimal(m)
    ensures n == m
    decreases n
  {
    DecimalDigits(n);
    DecimalDigits(m);
    if n < 10 {
      DigitInjective(n, m % 10);
    } else {
      assert m >= 10;
      var x, y := Decimal(n / 10), Decimal(m / 10);
      assert (x + [Digit(n % 10)])[|x|] == (y + [Digit(m % 10)])[|y|];
      assert (x + [Digit(n % 10)])[..|x|] == x && (y + [Digit(m % 10)])[..|y|] == y;
      DigitInjective(n % 10, m % 10);
      DecimalInjective(n / 10, m / 10);
    }
  }

  lemma SignedInjective(n: int, m: int)
    requires Signed(n) == Signed(m)
    ensures n == m
  {
    SignedHead(n);
    SignedHead(m);
    if n < 0 && m < 0 {
      assert ("-" + Decimal(-n))[1..] == Decimal(-n) && ("-" + Decimal(-m))[1..] == Decimal(-m);
      DecimalInjective(-n, -m);
    } else if n >= 0 && m >= 0 {
      DecimalInjective(n, m);
    }
  }

  lemma SignedHead(n: int)
    ensures Signed(n) != "" && (Signed(n)[0] == '-' <==> n < 0)
  {
    if n >= 0 {
      DecimalDigits(n);
      assert Decimal(n)[0] in Decimal(n);
    }
  }

  // ---- separators ----

  lemma SplitOnce(a: string, b: string, x: string, y: string, sep: char)
    requires a + [sep] + x == b + [sep] + y && sep !in a && sep !in b
    ensures a == b && x == y
  {
    var s, t := a + [sep] + x, b + [sep] + y;
    assert s[|a|] == sep && t[|b|] == sep;
    assert |a| == |b|;
    assert s[..|a|] == a && t[..|b|] == b && s[|a| + 1..] == x && t[|b| + 1..] == y;
  }

  predicate Plain(t: Triple) {
    ':' !in t.tokenId && '|' !in t.tokenId
  }

  /** An entry after its ctid. */
  function Tail(t: Triple): string {
    t.tokenId + [':'] + Signed(t.expiry)
  }

  lemma EntryShape(t: Triple)
    ensures Entry(t) == Decimal(t.ctid) + [':'] + Tail(t) && ':' !in Decimal(t.ctid)
  {
    DecimalDigits(t.ctid);
  }

  lemma TailInjective(t: Triple, u: Triple)
    requires Plain(t) && Plain(u) && Tail(t) == Tail(u)
    ensures t.tokenId == u.tokenId && t.expiry == u.expiry
  {
    SplitOnce(t.tokenId, u.tokenId, Signed(t.expiry), Signed(u.expiry), ':');
    SignedInjective(t.expiry, u.expiry);
  }

  lemma EntryInjective(t: Triple, u: Triple)
    requires Plain(t) && Plain(u) && Entry(t) == Entry(u)
    ensures t == u
  {
    EntryShape(t);
    EntryShape(u);
    SplitOnce(Decimal(t.ctid), Decimal(u.ctid), Tail(t), Tail(u), ':');
    TailInjective(t, u);
    DecimalInjective(t.ctid, u.ctid);
  }

  lemma EntryHasNoBar(t: Triple)
    requires Plain(t)
    ensures '|' !in Entry(t) && Entry(t) != ""
  {
    DecimalDigits(t.ctid);
    DecimalDigits(if t.expiry < 0 then -t.expiry else t.expiry);
  }

  predicate Barless(es: seq<string>) {
    forall i :: 0 <= i < |es| ==> '|' !in es[i] && es[i] != ""
  }

  lemma {:induction false} JoinInjective(es: seq<string>, fs: seq<string>)
    requires Barless(es) && Barless(fs) && Join(es) == Join(fs)
    ensures es == fs
    decreases |es|
  {
    JoinShape(es);
    JoinShape(fs);
    if |es| > 1 && |fs| > 1 {
      assert es[0] + ['|'] + Join(es[1..]) == fs[0] + ['|'] + Join(fs[1..]);
      SplitOnce(es[0], fs[0], Join(es[1..]), Join(fs[1..]), '|');
      JoinInjective(es[1..], fs[1..]);
      assert es == [es[0]] + es[1..] && fs == [fs[0]] + fs[1..];
    }
  }

  /** How many entries a join has shows in it. */
  lemma JoinShape(es: seq<string>)
    requires Barless(es)
    ensures |es| == 0 <==> Join(es) == ""
    ensures |es| > 1 <==> '|' in Join(es)
  {
    if |es| > 1 {
      assert Join(es) == es[0] + "|" + Join(es[1..]);
      assert Join(es)[|es[0]|] == '|';
    }
  }

  // ---- order ----

  predicate DistinctCtids(ts: seq<Triple>) {
    forall i, j :: 0 <= i < j < |ts| ==> ts[i].ctid != ts[j].ctid
  }

  predicate Rising(ts: seq<Triple>) {
    forall i, j :: 0 <= i < j < |ts| ==> ts[i].ctid < ts[j].ctid
  }

  function Set(ts: seq<Triple>): set<Triple> {
    set t | t in ts
  }

  lemma ConsRising(t: Triple, ts: seq<Triple>)
    requires Rising(ts) && forall u :: u in ts ==> t.ctid < u.ctid
    ensures Rising([t] + ts)
  {
    forall i | 0 <= i < |ts| ensures t.ctid < ts[i].ctid { assert ts[i] in ts; }
  }

  lemma {:induction false} InsertMembers(t: Triple, ts: seq<Triple>, u: Triple)
    ensures u in Insert(t, ts) <==> u == t || u in ts
    decreases |ts|
  {
    if ts != [] && !(t.ctid < ts[0].ctid) {
      assert ts == [ts[0]] + ts[1..];
      InsertMembers(t, ts[1..], u);
    }
  }

  lemma LaterCtids(ts: seq<Triple>, u: Triple)
    requires Rising(ts) && ts != [] && u in ts[1..]
    ensures ts[0].ctid < u.ctid
  {
    var i :| 0 <= i < |ts[1..]| && ts[1..][i] == u;
    assert ts[i + 1] == u;
  }

  lemma {:induction false} InsertRises(t: Triple, ts: seq<Triple>)
    requires Rising(ts) && forall i :: 0 <= i < |ts| ==> ts[i].ctid != t.ctid
    ensures Rising(Insert(t, ts))
    decreases |ts|
  {
    if ts == [] || t.ctid < ts[0].ctid {
      forall u | u in ts ensures t.ctid < u.ctid { var i :| 0 <= i < |ts| && ts[i] == u; }
      ConsRising(t, ts);
    } else {
      InsertRises(t, ts[1..]);
      forall u | u in Insert(t, ts[1..]) ensures ts[0].ctid < u.ctid {
        InsertMembers(t, ts[1..], u);
        if u != t { LaterCtids(ts, u); }
      }
      ConsRising(ts[0], Insert(t, ts[1..]));
    }
  }

  lemma InsertRising(t: Triple, ts: seq<Triple>)
    requires Rising(ts) && forall i :: 0 <= i < |ts| ==> ts[i].ctid != t.ctid
    ensures Rising(Insert(t, ts)) && Set(Insert(t, ts)) == Set(ts) + {t}
  {
    InsertRises(t, ts);
    forall u ensures u in Insert(t, ts) <==> u == t || u in ts { InsertMembers(t, ts, u); }
  }

  lemma {:induction false} SortedRising(ts: seq<Triple>)
    requires DistinctCtids(ts)
    ensures Rising(Sorted(ts)) && Set(Sorted(ts)) == Set(ts)
    decreases |ts|
  {
    if ts != [] {
      var n := |ts| - 1;
      SortedRising(ts[..n]);
      var r := Sorted(ts[..n]);
      assert ts == ts[..n] + [ts[n]];
      forall i | 0 <= i < |r| ensures r[i].ctid != ts[n].ctid {
        assert r[i] in Set(r);
        var j :| 0 <= j < n && ts[..n][j] == r[i];
      }
      InsertRising(ts[n], r);
    }
  }

  lemma {:induction false} RisingUnique(xs: seq<Triple>, ys: seq<Triple>)
    requires Rising(xs) && Rising(ys) && Set(xs) == Set(ys)
    ensures xs == ys
    decreases |xs|
  {
    if ys != [] { NonEmptySet(ys); }
    if xs != [] {
      SameHead(xs, ys);
      assert Set(xs[1..]) == Set(xs) - {xs[0]} by { TailSet(xs); }
      assert Set(ys[1..]) == Set(ys) - {ys[0]} by { TailSet(ys); }
      RisingUnique(xs[1..], ys[1..]);
      assert xs == [xs[0]] + xs[1..] && ys == [ys[0]] + ys[1..];
    }
  }

  lemma NonEmptySet(xs: seq<Triple>)
    requires xs != []
    ensures Set(xs) != {}
  {
    assert xs[0] in Set(xs);
  }

  lemma SameHead(xs: seq<Triple>, ys: seq<Triple>)
    requires Rising(xs) && Rising(ys) && Set(xs) == Set(ys) && xs != []
    ensures ys != [] && xs[0] == ys[0]
  {
    assert xs[0] in Set(ys);
    var i :| 0 <= i < |ys| && ys[i] == xs[0];
    assert ys[0] in Set(xs);
    var j :| 0 <= j < |xs| && xs[j] == ys[0];
  }

  lemma TailSet(xs: seq<Triple>)
    requires Rising(xs) && xs != []
    ensures Set(xs[1..]) == Set(xs) - {xs[0]}
  {
    assert xs == [xs[0]] + xs[1..];
    forall t | t in xs[1..] ensures t != xs[0] {
      var i :| 0 <= i < |xs[1..]| && xs[1..][i] == t;
      assert xs[i + 1] == t;
    }
  }

  /**
   * With distinct ctids and token ids free of the separators, two account sets have the same fingerprint
   * exactly when they are the same set of (ctid, token, expiry), in whatever order they were loaded.
   */
  lemma SameSignatureSameSet(xs: seq<Triple>, ys: seq<Triple>)
    requires DistinctCtids(xs) && DistinctCtids(ys)
    requires forall t :: t in xs || t in ys ==> Plain(t)
    ensures Signature(xs) == Signature(ys) <==> Set(xs) == Set(ys)
  {
    SortedRising(xs);
    SortedRising(ys);
    var a, b := Sorted(xs), Sorted(ys);
    assert forall t :: t in a ==> t in Set(xs);
    assert forall t :: t in b ==> t in Set(ys);
    if Signature(xs) == Signature(ys) {
      EntriesBarless(a);
      EntriesBarless(b);
      JoinInjective(Entries(a), Entries(b));
      EntriesInjective(a, b);
    } else if Set(xs) == Set(ys) {
      RisingUnique(a, b);
    }
  }

  lemma EntriesBarless(ts: seq<Triple>)
    requires forall t :: t in ts ==> Plain(t)
    ensures Barless(Entries(ts))
  {
    forall i | 0 <= i < |ts| ensures '|' !in Entries(ts)[i] && Entries(ts)[i] != "" {
      assert ts[i] in ts;
      EntryHasNoBar(ts[i]);
    }
  }

  lemma EntriesInjective(xs: seq<Triple>, ys: seq<Triple>)
    requires (forall t :: t in xs ==> Plain(t)) && (forall t :: t in ys ==> Plain(t)) && Entries(xs) == Entries(ys)
    ensures xs == ys
  {
    assert |xs| == |Entries(xs)| && |ys| == |Entries(ys)|;
    forall i | 0 <= i < |xs| ensures xs[i] == ys[i] {
      assert xs[i] in xs && ys[i] in ys;
      assert Entries(xs)[i] == Entries(ys)[i];
      EntryInjective(xs[i], ys[i]);
    }
  }

  const JOINED: Triple := Triple(1, "a:0|2:b", 0)
  const ONE: Triple := Triple(1, "a", 0)
  const TWO: Triple := Triple(2, "b", 0)

  lemma ThreeEntries()
    ensures Entry(JOINED) == "1:a:0|2:b:0" && Entry(ONE) == "1:a:0" && Entry(TWO) == "2:b:0"
  {
    assert Decimal(1) == "1" && Decimal(2) == "2" && Signed(0) == "0";
    assert "1" + ":" + "a:0|2:b" + ":" + "0" == "1:a:0|2:b:0";
    assert "1" + ":" + "a" + ":" + "0" == "1:a:0" && "2" + ":" + "b" + ":" + "0" == "2:b:0";
  }

  lemma SortedOne(t: Triple)
    ensures Sorted([t]) == [t]
  {
    assert [t][..0] == [];
    assert Insert(t, []) == [t] + [] == [t];
  }

  lemma SortedTwo(t: Triple, u: Triple)
    requires t.ctid < u.ctid
    ensures Sorted([t, u]) == [t, u]
  {
    SortedOne(t);
    assert [t, u][..1] == [t] && [t][1..] == [];
    assert Insert(u, [t]) == [t] + Insert(u, []);
  }

  /** The separator rule is needed: a token id with separators can make two different sets look alike. */
  lemma SeparatorsMatter()
    ensures DistinctCtids([JOINED]) && DistinctCtids([ONE, TWO]) && Set([JOINED]) != Set([ONE, TWO])
    ensures Signature([JOINED]) == Signature([ONE, TWO])
  {
    ThreeEntries();
    SortedOne(JOINED);
    SortedTwo(ONE, TWO);
    assert Entries([JOINED]) == [Entry(JOINED)] && Entries([ONE, TWO]) == [Entry(ONE), Entry(TWO)];
    assert [Entry(ONE), Entry(TWO)][1..] == [Entry(TWO)];
    assert Join([Entry(ONE), Entry(TWO)]) == Entry(ONE) + "|" + Entry(TWO);
    assert "1:a:0" + "|" + "2:b:0" == "1:a:0|2:b:0";
    assert JOINED in Set([JOINED]) && JOINED !in Set([ONE, TWO]);
  }
}
