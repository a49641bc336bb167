/** The order in which SQLite compares TEXT columns: byte by byte, a proper prefix first. */
module ByteOrder {

  predicate Below(a: string, b: string) {
    if b == "" then false
    else if a == "" then true
    else if a[0] != b[0] then a[0] < b[0]
    else Below(a[1..], b[1..])
  }

  lemma BelowIrreflexive(a: string)
    ensures !Below(a, a)
  {
  }

  lemma {:induction false} BelowTransitive(a: string, b: string, c: string)
    requires Below(a, b) && Below(b, c)
    ensures Below(a, c)
    decreases |a|
  {
    if a != "" && a[0] == b[0] && b[0] == c[0] {
      BelowTransitive(a[1..], b[1..], c[1..]);
    }
  }

  /** Of two texts exactly one comes first, unless they are the same text. */
  lemma {:induction false} BelowTrichotomy(a: string, b: string)
    ensures a != b ==> (Below(a, b) <==> !Below(b, a))
    decreases |a|
  {
    if a != "" && b != "" {
      assert a == [a[0]] + a[1..] && b == [b[0]] + b[1..];
      BelowTrichotomy(a[1..], b[1..]);
    }
  }

  /** A common prefix does not matter. */
  lemma {:induction false} BelowPrefix(p: string, a: string, b: string)
    ensures Below(p + a, p + b) <==> Below(a, b)
  {
    if p == "" {
      assert p + a == a && p + b == b;
    } else {
      assert (p + a)[1..] == p[1..] + a && (p + b)[1..] == p[1..] + b;
      BelowPrefix(p[1..], a, b);
    }
  }

  /** Two different blocks of one width decide the order, whatever follows them. */
  lemma {:induction false} BelowBlock(x: string, y: string, a: string, b: string)
    requires |x| == |y|
    ensures Below(x + a, y + b) <==> Below(x, y) || (x == y && Below(a, b))
  {
    if x == y {
      BelowPrefix(x, a, b);
      BelowIrreflexive(x);
    } else {
      assert x == [x[0]] + x[1..] && y == [y[0]] + y[1..];
      assert (x + a)[1..] == x[1..] + a && (y + b)[1..] == y[1..] + b;
      if x[0] == y[0] {
        BelowBlock(x[1..], y[1..], a, b);
      }
    }
  }

  /** The first place where two texts differ decides. */
  lemma {:induction false} BelowAt(a: string, b: string, i: nat)
    requires i < |a| && i < |b| && a[..i] == b[..i] && a[i] < b[i]
    ensures Below(a, b) && !Below(b, a)
  {
    if i > 0 {
      assert a[0] == a[..i][0] == b[..i][0] == b[0];
      assert a[1..][..i - 1] == a[..i][1..] == b[..i][1..] == b[1..][..i - 1];
      BelowAt(a[1..], b[1..], i - 1);
    }
  }

  /** Texts of one length that are in order differ somewhere. */
  lemma {:induction false} BelowWitness(a: string, b: string) returns (i: nat)
    requires |a| == |b| && Below(a, b)
    ensures i < |a| && a[..i] == b[..i] && a[i] < b[i]
  {
    if a[0] != b[0] {
      i := 0;
    } else {
      var j := BelowWitness(a[1..], b[1..]);
      i := j + 1;
      assert a[..i] == [a[0]] + a[1..][..j] && b[..i] == [b[0]] + b[1..][..j];
    }
  }
}
