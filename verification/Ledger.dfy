/** The hash-chained event ledger.  Bodies and hashes are arbitrary; the keyed hash is any function of
    what it covers, and the lemmas that need it say that it is injective.  */
module Ledger {

  datatype Link<+H> = Genesis | After(hash: H)

  /** What one hash covers. */
  datatype Covered<+B, +H> = Covered(sequence: int, body: B, previous: Link<H>)
  datatype Row<+B, +H> = Row(sequence: int, body: B, previous: Link<H>, hash: H)

  ghost predicate Injective<B(!new), H(!new)>(mac: Covered<B, H> -> H) {
    forall x, y :: mac(x) == mac(y) ==> x == y
  }

  function Head<B, H>(rows: seq<Row<B, H>>): Link<H> {
    if rows == [] then Genesis else After(rows[|rows| - 1].hash)
  }

  function Next<B, H>(mac: Covered<B, H> -> H, rows: seq<Row<B, H>>, body: B): Row<B, H> {
    var sequence := if rows == [] then 0 else rows[|rows| - 1].sequence + 1;
    Row(sequence, body, Head(rows), mac(Covered(sequence, body, Head(rows))))
  }

  /** The ledger that appending these bodies in order to an empty one produces. */
  function Chain<B, H>(mac: Covered<B, H> -> H, bodies: seq<B>): seq<Row<B, H>> {
    if bodies == [] then []
    else
      var before := Chain(mac, bodies[..|bodies| - 1]);
      before + [Next(mac, before, bodies[|bodies| - 1])]
  }

  predicate RowHolds<B, H(==)>(mac: Covered<B, H> -> H, rows: seq<Row<B, H>>, i: nat)
    requires i < |rows|
  {
    && rows[i].sequence == i
    && rows[i].previous == Head(rows[..i])
    && rows[i].hash == mac(Covered(i, rows[i].body, rows[i].previous))
  }

  predicate Verified<B, H(==)>(mac: Covered<B, H> -> H, rows: seq<Row<B, H>>) {
    forall i :: 0 <= i < |rows| ==> RowHolds(mac, rows, i)
  }

  function Bodies<B, H>(rows: seq<Row<B, H>>): (bodies: seq<B>)
    ensures |bodies| == |rows| && forall i :: 0 <= i < |rows| ==> bodies[i] == rows[i].body
  {
    seq(|rows|, i requires 0 <= i < |rows| => rows[i].body)
  }

  lemma PrefixVerifies<B, H>(mac: Covered<B, H> -> H, rows: seq<Row<B, H>>, n: nat)
    requires Verified(mac, rows) && n <= |rows|
    ensures Verified(mac, rows[..n])
  {
    forall i | 0 <= i < n ensures RowHolds(mac, rows[..n], i) {
      assert RowHolds(mac, rows, i) && rows[..n][..i] == rows[..i];
    }
  }

  lemma AppendVerifies<B, H>(mac: Covered<B, H> -> H, rows: seq<Row<B, H>>, body: B)
    requires Verified(mac, rows)
    ensures Verified(mac, rows + [Next(mac, rows, body)])
  {
    var longer := rows + [Next(mac, rows, body)];
    forall i | 0 <= i < |longer| ensures RowHolds(mac, longer, i) {
      assert longer[..i] == rows[..i];
      if i < |rows| { assert RowHolds(mac, rows, i); }
      if rows != [] { assert RowHolds(mac, rows, |rows| - 1); }
      assert rows[..|rows|] == rows;
    }
  }

  /** A table verifies exactly when it is what appending its own bodies in order would have written. */
  lemma {:induction false} VerifiedIsChain<B, H>(mac: Covered<B, H> -> H, rows: seq<Row<B, H>>)
    ensures Verified(mac, rows) <==> rows == Chain(mac, Bodies(rows))
    decreases |rows|
  {
    if rows != [] {
      var n := |rows| - 1;
      var before := rows[..n];
      VerifiedIsChain(mac, before);
      assert Bodies(before) == Bodies(rows)[..n];
      assert rows == before + [rows[n]];
      if Verified(mac, rows) {
        PrefixVerifies(mac, rows, n);
        assert RowHolds(mac, rows, n);
        if n > 0 { assert RowHolds(mac, rows, n - 1); }
      } else if rows == Chain(mac, Bodies(rows)) {
        AppendVerifies(mac, before, rows[n].body);
      }
    }
  }

  /** Two verifying ledgers that share one hash agree on the position of that hash and on every row up
      to it: an anchored head pins the whole history before it. */
  lemma {:induction false} AnchorPinsHistory<B(!new), H(!new)>(mac: Covered<B, H> -> H, a: seq<Row<B, H>>, b: seq<Row<B, H>>, n: nat, m: nat)
    requires Injective(mac) && Verified(mac, a) && Verified(mac, b)
    requires n < |a| && m < |b| && a[n].hash == b[m].hash
    ensures n == m && a[..n + 1] == b[..n + 1]
    decreases n
  {
    assert RowHolds(mac, a, n) && RowHolds(mac, b, m);
    assert a[n] == b[m];
    if n > 0 {
      assert a[..n][n - 1] == a[n - 1] && b[..m][m - 1] == b[m - 1];
      AnchorPinsHistory(mac, a, b, n - 1, m - 1);
      assert a[..n + 1] == a[..n] + [a[n]] && b[..n + 1] == b[..n] + [b[n]];
    }
  }

  class EventLedger<B(==), H(==)> {
    const mac: Covered<B, H> -> H
    var rows: seq<Row<B, H>>

    constructor (mac: Covered<B, H> -> H)
      ensures this.mac == mac && rows == []
    {
      this.mac, rows := mac, [];
    }

    method Append(body: B)
      modifies this`rows
      ensures rows == old(rows) + [Next(mac, old(rows), body)]
      ensures old(Verified(mac, rows)) ==> Verified(mac, rows)
    {
      var sequence, previous := 0, Genesis;
      if |rows| > 0 {
        var head := rows[|rows| - 1];
        sequence, previous := head.sequence + 1, After(head.hash);
      }
      if Verified(mac, rows) { AppendVerifies(mac, rows, body); }
      rows := rows + [Row(sequence, body, previous, mac(Covered(sequence, body, previous)))];
    }

    method Verify() returns (ok: bool)
      ensures ok <==> Verified(mac, rows)
    {
      var previous := Genesis;
      var i := 0;
      while i < |rows|
        invariant 0 <= i <= |rows|
        invariant previous == Head(rows[..i])
        invariant forall j :: 0 <= j < i ==> RowHolds(mac, rows, j)
      {
        var row := rows[i];
        if row.sequence != i || row.previous != previous || row.hash != mac(Covered(row.sequence, row.body, previous)) {
          assert !RowHolds(mac, rows, i);
          return false;
        }
        assert rows[..i + 1] == rows[..i] + [row];
        previous := After(row.hash);
        i := i + 1;
      }
      ok := true;
    }

    method Anchor() returns (sequence: int, head: Link<H>)
      ensures head == Head(rows)
      ensures sequence == if rows == [] then -1 else rows[|rows| - 1].sequence
    {
      if |rows| == 0 { return -1, Genesis; }
      return rows[|rows| - 1].sequence, After(rows[|rows| - 1].hash);
    }

    method VerifyAnchor(sequence: int, head: Link<H>) returns (ok: bool)
      ensures ok <==> Verified(mac, rows) && (sequence < 0 || (sequence < |rows| && After(rows[sequence].hash) == head))
    {
      var verified := Verify();
      if !verified { return false; }
      if sequence < 0 { return true; }
      assert forall i :: 0 <= i < |rows| ==> RowHolds(mac, rows, i);
      var i := 0;
      while i < |rows| && rows[i].sequence != sequence
        invariant 0 <= i <= |rows|
        invariant i <= sequence
      {
        assert RowHolds(mac, rows, i);
        i := i + 1;
      }
      if i < |rows| { assert RowHolds(mac, rows, i); }
      if sequence < |rows| { assert RowHolds(mac, rows, sequence); }
      ok := i < |rows| && After(rows[i].hash) == head;
    }
  }

  /** An anchor taken from a verifying ledger and presented later to a verifying ledger: it is accepted
      only if everything up to the anchor is unchanged. */
  lemma AnchorDetectsRewrites<B(!new), H(!new)>(mac: Covered<B, H> -> H, anchored: seq<Row<B, H>>, now: seq<Row<B, H>>)
    requires Injective(mac) && Verified(mac, anchored) && Verified(mac, now) && anchored != []
    ensures |anchored| <= |now| && After(now[|anchored| - 1].hash) == Head(anchored) <==> anchored <= now
  {
    var n := |anchored| - 1;
    if |anchored| <= |now| && now[n].hash == anchored[n].hash {
      AnchorPinsHistory(mac, anchored, now, n, n);
      assert anchored[..n + 1] == anchored;
    }
  }
}
