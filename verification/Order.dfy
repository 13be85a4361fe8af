/**
 Strict total orders, the lexicographic order, and the ascending listing of a finite
 set. The listing is the order in which a BTreeSet or the keys of a BTreeMap are visited.
 */
module Order {

  ghost predicate StrictTotal<T(!new)>(lt: (T, T) -> bool) {
    && (forall x :: !lt(x, x))
    && (forall x, y :: x != y ==> lt(x, y) || lt(y, x))
    && (forall x, y, z :: lt(x, y) && lt(y, z) ==> lt(x, z))
  }

  predicate Lex<T(==)>(lt: (T, T) -> bool, a: seq<T>, b: seq<T>) {
    if b == [] then false
    else if a == [] then true
    else if a[0] == b[0] then Lex(lt, a[1..], b[1..])
    else lt(a[0], b[0])
  }

  lemma {:induction false} LexTotal<T(!new)>(lt: (T, T) -> bool, a: seq<T>, b: seq<T>)
    requires StrictTotal(lt)
    ensures !Lex(lt, a, a)
    ensures a != b ==> Lex(lt, a, b) || Lex(lt, b, a)
  {
    if a != [] {
      LexTotal(lt, a[1..], if b == [] then [] else b[1..]);
      if b != [] && a[0] == b[0] {
        assert a == [a[0]] + a[1..] && b == [b[0]] + b[1..];
      }
    }
  }

  lemma {:induction false} LexTransitive<T(!new)>(lt: (T, T) -> bool, a: seq<T>, b: seq<T>, c: seq<T>)
    requires StrictTotal(lt)
    requires Lex(lt, a, b) && Lex(lt, b, c)
    ensures Lex(lt, a, c)
  {
    if a != [] && a[0] == b[0] && b[0] == c[0] {
      LexTransitive(lt, a[1..], b[1..], c[1..]);
    }
  }

  predicate CharLess(a: char, b: char) { a < b }

  /** Order of `str`: byte-wise, which for UTF-8 is scalar-wise. */
  predicate StringLess(a: string, b: string) { Lex(CharLess, a, b) }

  /** Order of `PathBuf`: component-wise. */
  predicate PathLess(a: seq<string>, b: seq<string>) { Lex(StringLess, a, b) }

  lemma StringOrder()
    ensures StrictTotal(StringLess)
  {
    forall a, b ensures !StringLess(a, a) && (a != b ==> StringLess(a, b) || StringLess(b, a)) {
      LexTotal(CharLess, a, b);
    }
    forall a, b, c | StringLess(a, b) && StringLess(b, c) ensures StringLess(a, c) {
      LexTransitive(CharLess, a, b, c);
    }
  }

  lemma PathOrder()
    ensures StrictTotal(PathLess)
  {
    StringOrder();
    forall a, b ensures !PathLess(a, a) && (a != b ==> PathLess(a, b) || PathLess(b, a)) {
      LexTotal(StringLess, a, b);
    }
    forall a, b, c | PathLess(a, b) && PathLess(b, c) ensures PathLess(a, c) {
      LexTransitive(StringLess, a, b, c);
    }
  }

  ghost predicate Ascending<T>(lt: (T, T) -> bool, s: seq<T>) {
    forall i, j :: 0 <= i < j < |s| ==> lt(s[i], s[j])
  }

  ghost predicate Lists<T(!new)>(s: seq<T>, elements: set<T>) {
    forall x :: x in s <==> x in elements
  }

  predicate IsLeast<T(==)>(lt: (T, T) -> bool, s: set<T>, m: T) {
    m in s && forall x :: x in s ==> x == m || lt(m, x)
  }

  lemma {:induction false} LeastExists<T(!new)>(lt: (T, T) -> bool, s: set<T>)
    requires StrictTotal(lt) && s != {}
    ensures exists m :: IsLeast(lt, s, m)
  {
    var x :| x in s;
    if s == {x} {
      assert IsLeast(lt, s, x);
    } else {
      LeastExists(lt, s - {x});
      var m :| IsLeast(lt, s - {x}, m);
      assert lt(x, m) || lt(m, x);
      if lt(x, m) {
        forall y | y in s ensures y == x || lt(x, y) {
          assert y == x || y in s - {x};
        }
        assert IsLeast(lt, s, x);
      } else {
        assert IsLeast(lt, s, m);
      }
    }
  }

  /** The elements of a set in ascending order. */
  function Listing<T(==,!new)>(lt: (T, T) -> bool, s: set<T>): (r: seq<T>)
    requires StrictTotal(lt)
    ensures Ascending(lt, r) && Lists(r, s) && |r| == |s|
  {
    if s == {} then []
    else
      LeastExists(lt, s);
      var m :| IsLeast(lt, s, m);
      var rest := Listing(lt, s - {m});
      assert forall x :: x in s <==> x == m || x in rest;
      [m] + rest
  }

  /** Ascending order leaves no choice: equal contents give equal sequences. */
  lemma {:induction false} AscendingUnique<T(!new)>(lt: (T, T) -> bool, a: seq<T>, b: seq<T>)
    requires StrictTotal(lt) && Ascending(lt, a) && Ascending(lt, b)
    requires forall x :: x in a <==> x in b
    ensures a == b
  {
    assert a != [] ==> a[0] in b;
    assert b != [] ==> b[0] in a;
    if a != [] {
      assert a[0] == b[0];
      forall x ensures x in a[1..] <==> x in b[1..] {
        assert x in a <==> x == a[0] || x in a[1..];
        assert x in b <==> x == b[0] || x in b[1..];
        assert a[0] !in a[1..] && b[0] !in b[1..];
      }
      AscendingUnique(lt, a[1..], b[1..]);
      assert a == [a[0]] + a[1..] && b == [b[0]] + b[1..];
    }
  }
}
