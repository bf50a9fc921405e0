// probe/spool.py: file names and their order.
module SpoolNames {
  import opened Common

  // ---------------------------------------------------------------- lexicographic order

  predicate Before(a: string, b: string) {
    if b == "" then false
    else if a == "" then true
    else a[0] < b[0] || (a[0] == b[0] && Before(a[1..], b[1..]))
  }

  lemma {:induction false} BeforeIrreflexive(a: string)
    ensures !Before(a, a)
  {
    if a != "" { BeforeIrreflexive(a[1..]); }
  }

  lemma {:induction false} BeforeTransitive(a: string, b: string, c: string)
    requires Before(a, b) && Before(b, c)
    ensures Before(a, c)
  {
    if a != "" && a[0] == b[0] == c[0] { BeforeTransitive(a[1..], b[1..], c[1..]); }
  }

  lemma {:induction false} BeforeTotal(a: string, b: string)
    ensures Before(a, b) || a == b || Before(b, a)
  {
    if a != "" && b != "" && a[0] == b[0] {
      BeforeTotal(a[1..], b[1..]);
      assert a == [a[0]] + a[1..] && b == [b[0]] + b[1..];
    }
  }

  lemma {:induction false} CommonPrefix(p: string, a: string, b: string)
    ensures Before(p + a, p + b) <==> Before(a, b)
  {
    if p == "" {
      assert p + a == a && p + b == b;
    } else {
      assert (p + a)[1..] == p[1..] + a && (p + b)[1..] == p[1..] + b;
      CommonPrefix(p[1..], a, b);
    }
  }

  // ---------------------------------------------------------------- names

  function TenTo(w: nat): nat { if w == 0 then 1 else 10 * TenTo(w - 1) }

  function Digits(n: nat, w: nat): string {
    if w == 0 then "" else Digits(n / 10, w - 1) + ['0' + (n % 10) as char]
  }

  // The format :015d: fifteen digits, or as many as the number needs.
  function Width(n: nat): nat { if n < TenTo(15) then 15 else Needed(n) }

  function Needed(n: nat): nat { if n < 10 then 1 else Needed(n / 10) + 1 }

  type Seconds = t: real | t >= 0.0

  function Millis(now: Seconds): nat { (now * 1000.0).Floor }

  function FileName(now: Seconds, id: string): string {
    Digits(Millis(now), Width(Millis(now))) + ("-" + id + ".batch.json")
  }

  lemma {:induction false} DigitsOrder(m: nat, n: nat, w: nat, x: string, y: string)
    requires m < n < TenTo(w)
    ensures Before(Digits(m, w) + x, Digits(n, w) + y)
  {
    if w > 0 {
      var dm, dn := ['0' + (m % 10) as char], ['0' + (n % 10) as char];
      var pm, pn := Digits(m / 10, w - 1), Digits(n / 10, w - 1);
      assert pm + dm + x == pm + (dm + x) && pn + dn + y == pn + (dn + y);
      if m / 10 < n / 10 {
        DigitsOrder(m / 10, n / 10, w - 1, dm + x, dn + y);
      } else {
        assert m / 10 == n / 10 && m % 10 < n % 10;
        CommonPrefix(pm, dm + x, dn + y);
      }
    }
  }

  lemma FifteenDigits()
    ensures TenTo(15) == 1_000_000_000_000_000
  {
    assert TenTo(5) == 100_000 && TenTo(10) == 100_000 * TenTo(5) && TenTo(15) == 100_000 * TenTo(10);
  }

  // Names sort by creation millisecond, and within one by batch id.
  lemma NamesAreFifo(t: Seconds, a: string, u: Seconds, b: string)
    requires (t * 1000.0).Floor < 1_000_000_000_000_000 && (u * 1000.0).Floor < 1_000_000_000_000_000
    ensures (t * 1000.0).Floor < (u * 1000.0).Floor ==> Before(FileName(t, a), FileName(u, b))
    ensures (t * 1000.0).Floor == (u * 1000.0).Floor ==>
              (Before(FileName(t, a), FileName(u, b)) <==> Before(a + ".batch.json", b + ".batch.json"))
  {
    FifteenDigits();
    hide Digits, TenTo;
    if Millis(t) < Millis(u) {
      DigitsOrder(Millis(t), Millis(u), 15, "-" + a + ".batch.json", "-" + b + ".batch.json");
    } else if Millis(t) == Millis(u) {
      CommonPrefix(Digits(Millis(t), 15), "-" + a + ".batch.json", "-" + b + ".batch.json");
      assert "-" + a + ".batch.json" == "-" + (a + ".batch.json");
      assert "-" + b + ".batch.json" == "-" + (b + ".batch.json");
      CommonPrefix("-", a + ".batch.json", b + ".batch.json");
    }
  }

  predicate DashFree(s: string) { forall i :: 0 <= i < |s| ==> s[i] != '-' }

  lemma {:induction false} DigitsDashFree(n: nat, w: nat)
    ensures DashFree(Digits(n, w))
  {
    if w > 0 {
      DigitsDashFree(n / 10, w - 1);
      assert '0' + (n % 10) as char != '-';
    }
  }

  // A name tells the id of the batch it was made for.
  lemma NameTellsId(t: Seconds, a: string, u: Seconds, b: string)
    requires FileName(t, a) == FileName(u, b)
    ensures a == b
  {
    DigitsDashFree(Millis(t), Width(Millis(t)));
    DigitsDashFree(Millis(u), Width(Millis(u)));
    hide Digits, Width, Millis;
    var d, e := Digits(Millis(t), Width(Millis(t))), Digits(Millis(u), Width(Millis(u)));
    var x, y := "-" + a + ".batch.json", "-" + b + ".batch.json";
    assert (d + x)[|d|] == '-' && (e + y)[|e|] == '-';
    assert |d| == |e|;
    assert (d + x)[|d|..] == x && (e + y)[|e|..] == y;
    assert x[1..1 + |a|] == a && y[1..1 + |b|] == b;
  }

  // ---------------------------------------------------------------- sorted listings

  predicate Increasing(s: seq<string>) {
    forall i, j :: 0 <= i < j < |s| ==> Before(s[i], s[j])
  }

  ghost predicate IsListing(names: set<string>, s: seq<string>) {
    Increasing(s) && (forall n :: n in s <==> n in names)
  }

  lemma {:induction false} ListingUnique(names: set<string>, s: seq<string>, t: seq<string>)
    requires IsListing(names, s) && IsListing(names, t)
    ensures s == t
    decreases |s|
  {
    assert t != [] ==> t[0] in t && t[0] in s;
    if s != [] {
      assert s[0] in s && s[0] in t;
      FirstIsLeast(names, s, t);
      var rest := names - {s[0]};
      TailListing(names, s);
      TailListing(names, t);
      ListingUnique(rest, s[1..], t[1..]);
      assert s == [s[0]] + s[1..] && t == [t[0]] + t[1..];
    }
  }

  lemma FirstIsLeast(names: set<string>, s: seq<string>, t: seq<string>)
    requires IsListing(names, s) && IsListing(names, t) && s != [] && t != []
    ensures s[0] == t[0]
  {
    assert s[0] in t && t[0] in s;
    if s[0] != t[0] {
      BeforeTransitive(s[0], t[0], s[0]);
      BeforeIrreflexive(s[0]);
    }
  }

  lemma TailListing(names: set<string>, s: seq<string>)
    requires IsListing(names, s) && s != []
    ensures IsListing(names - {s[0]}, s[1..])
  {
    BeforeIrreflexive(s[0]);
    forall n
      ensures n in s[1..] <==> n in names - {s[0]}
    {
      if n in s[1..] {
        var i :| 0 <= i < |s[1..]| && s[1..][i] == n;
        assert Before(s[0], s[i + 1]);
      }
    }
  }

  lemma {:induction false} Least(names: set<string>) returns (m: string)
    requires names != {}
    ensures m in names && forall n <- names :: n == m || Before(m, n)
  {
    var x :| x in names;
    if names == {x} {
      m := x;
    } else {
      var m' := Least(names - {x});
      BeforeTotal(x, m');
      m := if Before(x, m') then x else m';
      forall n | n in names
        ensures n == m || Before(m, n)
      {
        if n != x && n != m' && m == x { BeforeTransitive(x, m', n); }
      }
    }
  }

  lemma {:induction false} ListingExists(names: set<string>)
    ensures exists s :: IsListing(names, s)
  {
    if names == {} {
      assert IsListing(names, []);
    } else {
      var m := Least(names);
      ListingExists(names - {m});
      var s :| IsListing(names - {m}, s);
      assert IsListing(names, [m] + s) by {
        forall i | 0 <= i < |s|
          ensures Before(m, s[i])
        {
          assert s[i] in s;
        }
      }
    }
  }

  // The names in order: what sorted() makes of a directory.
  ghost function Listing(names: set<string>): (s: seq<string>)
    ensures IsListing(names, s)
  {
    ListingExists(names);
    var s :| IsListing(names, s); s
  }

  lemma ListingSize(names: set<string>)
    ensures |Listing(names)| == |names|
  {
    ListedSize(names, Listing(names));
  }

  lemma {:induction false} ListedSize(names: set<string>, s: seq<string>)
    requires IsListing(names, s)
    ensures |s| == |names|
    decreases |s|
  {
    assert forall n <- names :: n in s;
    if s != [] {
      TailListing(names, s);
      ListedSize(names - {s[0]}, s[1..]);
      assert s[0] in names;
    }
  }

  // The least remaining name, over and over.
  method Sorted(names: set<string>) returns (s: seq<string>)
    ensures s == Listing(names)
  {
    s := [];
    var rest := names;
    while rest != {}
      invariant rest <= names && Increasing(s)
      invariant forall n :: n in s <==> n in names - rest
      invariant forall i, n :: 0 <= i < |s| && n in rest ==> Before(s[i], n)
      decreases rest
    {
      var m := MinName(rest);
      s := s + [m];
      rest := rest - {m};
    }
    ListingUnique(names, s, Listing(names));
  }

  method MinName(names: set<string>) returns (m: string)
    requires names != {}
    ensures m in names && forall n <- names :: n == m || Before(m, n)
  {
    m :| m in names;
    var rest := names - {m};
    while rest != {}
      invariant rest <= names && m in names - rest
      invariant forall n <- names - rest :: n == m || Before(m, n)
      decreases rest
    {
      var x :| x in rest;
      BeforeTotal(x, m);
      if Before(x, m) {
        forall n | n in names - rest
          ensures Before(x, n)
        {
          if n != m { BeforeTransitive(x, m, n); }
        }
        m := x;
      }
      rest := rest - {x};
    }
  }
}
