/**
 The hash chain of an audit export: each link is the hash of the previous link's hex digits
 followed by the row without its chain field. Whoever knows the last link knows every row.
 */
module AuditChain {
  import opened PeriodKeys

  predicate IsHex(c: char) {
    '0' <= c <= '9' || 'a' <= c <= 'f'
  }

  /** A hash as the export prints it. */
  predicate IsLink(s: string) {
    |s| == 64 && forall k :: 0 <= k < 64 ==> IsHex(s[k])
  }

  ghost predicate Hashes(hash: string -> string) {
    forall x :: IsLink(hash(x))
  }

  /** Every row is a JSON object. */
  predicate IsRow(row: string) {
    row != [] && row[0] == '{'
  }

  function ChainStep(hash: string -> string, prev: string, row: string): string {
    hash(prev + row)
  }

  function Chain(hash: string -> string, rows: seq<string>): string {
    if rows == [] then "" else ChainStep(hash, Chain(hash, rows[..|rows| - 1]), rows[|rows| - 1])
  }

  predicate AllRows(rows: seq<string>) {
    forall k :: 0 <= k < |rows| ==> IsRow(rows[k])
  }

  lemma ChainShape(hash: string -> string, rows: seq<string>)
    requires Hashes(hash)
    ensures if rows == [] then Chain(hash, rows) == "" else IsLink(Chain(hash, rows))
  {
  }

  /** What was hashed can be split into the previous link and the row in only one way. */
  lemma OneSplit(prev: string, row: string, prev': string, row': string)
    requires (prev == "" || IsLink(prev)) && (prev' == "" || IsLink(prev')) && IsRow(row) && IsRow(row')
    requires prev + row == prev' + row'
    ensures prev == prev' && row == row'
  {
    var text := prev + row;
    assert prev == "" <==> text[0] == '{';
    assert prev' == "" <==> (prev' + row')[0] == '{';
    assert |prev| == |prev'|;
    assert text[..|prev|] == prev && (prev' + row')[..|prev|] == prev';
    assert text[|prev|..] == row && (prev' + row')[|prev|..] == row';
  }

  /** Two different texts with one hash. */
  predicate Collides(hash: string -> string, x: string, y: string) {
    x != y && hash(x) == hash(y)
  }

  /**
   Two exports with the same final link have the same rows, in the same order and number; if
   not, the two exports exhibit a hash collision, which is returned.
   */
  lemma {:induction false} SameEndSameRows(hash: string -> string, a: seq<string>, b: seq<string>) returns (x: string, y: string)
    requires Hashes(hash) && AllRows(a) && AllRows(b) && Chain(hash, a) == Chain(hash, b)
    ensures a == b || Collides(hash, x, y)
    decreases |a|
  {
    x, y := "", "";
    ChainShape(hash, a);
    ChainShape(hash, b);
    if a != [] {
      var m, n := |a| - 1, |b| - 1;
      x, y := Chain(hash, a[..m]) + a[m], Chain(hash, b[..n]) + b[n];
      if x == y {
        ChainShape(hash, a[..m]);
        ChainShape(hash, b[..n]);
        OneSplit(Chain(hash, a[..m]), a[m], Chain(hash, b[..n]), b[n]);
        assert a == a[..m] + [a[m]] && b == b[..n] + [b[n]];
        x, y := SameEndSameRows(hash, a[..m], b[..n]);
      }
    }
  }

  /** A changed, removed or inserted row shows in every later link, unless there is a collision. */
  lemma TamperingShows(hash: string -> string, a: seq<string>, b: seq<string>, k: nat, m: nat, n: nat) returns (x: string, y: string)
    requires Hashes(hash) && AllRows(a) && AllRows(b) && k < |a| && k < |b| && a[k] != b[k]
    requires k < m <= |a| && k < n <= |b|
    ensures Chain(hash, a[..m]) != Chain(hash, b[..n]) || Collides(hash, x, y)
  {
    x, y := "", "";
    if Chain(hash, a[..m]) == Chain(hash, b[..n]) {
      assert a[..m][k] == a[k] && b[..n][k] == b[k];
      x, y := SameEndSameRows(hash, a[..m], b[..n]);
    }
  }

  // ---------- writing the export ----------

  /** A line-wise output that may stop accepting at any time, unless it is healthy. */
  class Output {
    const healthy: bool
    var lines: seq<string>

    constructor (healthy: bool)
      ensures lines == [] && this.healthy == healthy
    {
      this.healthy, lines := healthy, [];
    }

    method WriteLine(line: string) returns (ok: bool)
      modifies this
      ensures lines == if ok then old(lines) + [line] else old(lines)
      ensures healthy ==> ok
    {
      ok := *;
      ok := ok || healthy;
      if ok { lines := lines + [line]; }
    }
  }

  /** The lines of an export: every row sealed with its own link. */
  function Lines(hash: string -> string, seal: (string, string) -> string, rows: seq<string>): seq<string> {
    if rows == [] then []
    else Lines(hash, seal, rows[..|rows| - 1]) + [seal(rows[|rows| - 1], Chain(hash, rows))]
  }

  lemma OneMoreRow(hash: string -> string, seal: (string, string) -> string, rows: seq<string>, n: nat)
    requires n < |rows|
    ensures Chain(hash, rows[..n + 1]) == ChainStep(hash, Chain(hash, rows[..n]), rows[n])
    ensures Lines(hash, seal, rows[..n + 1]) == Lines(hash, seal, rows[..n]) + [seal(rows[n], Chain(hash, rows[..n + 1]))]
  {
    assert rows[..n + 1][..n] == rows[..n];
  }

  /** Writes the rows until the first failure; count and chain always describe what was written. */
  method WriteAuditExportRows(hash: string -> string, seal: (string, string) -> string, rows: seq<string>, output: Output)
    returns (count: nat, chain: string, ok: bool)
    modifies output
    ensures count <= |rows| && (ok <==> count == |rows|)
    ensures output.lines == old(output.lines) + Lines(hash, seal, rows[..count])
    ensures ok ==> chain == Chain(hash, rows)
    ensures output.healthy ==> ok
  {
    hide ChainStep;
    count, chain := 0, "";
    assert Lines(hash, seal, rows[..0]) == [];
    hide Chain, Lines;
    while count < |rows|
      invariant count <= |rows| && chain == Chain(hash, rows[..count])
      invariant output.lines == old(output.lines) + Lines(hash, seal, rows[..count])
    {
      OneMoreRow(hash, seal, rows, count);
      chain := ChainStep(hash, chain, rows[count]);
      ok := output.WriteLine(seal(rows[count], chain));
      if !ok { return; }
      count := count + 1;
    }
    assert rows[..|rows|] == rows;
    ok := true;
  }
}
