/** Decoding the simulator's reply: the `memory` list holds one string per
    shot, each a whitespace-separated list of integers, one per measured
    wire. The devices turn it into a shots × wires integer matrix with
    `results[ind_1].split()` and `int(temp[ind_2])` inside two nested loops. */
module ResultDecode {
  import opened Common

  /** Python's `str.isspace()` for one character. */
  predicate IsSpace(c: char) {
    var n := c as int;
    n == 32 || 9 <= n <= 13 || 28 <= n <= 31 || n == 0x85 || n == 0xA0 || n == 0x1680
    || 0x2000 <= n <= 0x200A || n == 0x2028 || n == 0x2029 || n == 0x202F
    || n == 0x205F || n == 0x3000
  }

  /** A token `str.split()` can produce: non-empty, without whitespace. */
  predicate IsWord(w: string) {
    |w| > 0 && forall i :: 0 <= i < |w| ==> !IsSpace(w[i])
  }

  /** s without its leading whitespace. */
  function DropSpace(s: string): (r: string)
    ensures |r| <= |s|
    ensures r == [] || !IsSpace(r[0])
  {
    if s != [] && IsSpace(s[0]) then DropSpace(s[1..]) else s
  }

  /** The length of the run of non-whitespace characters s starts with. */
  function WordLength(s: string): (n: nat)
    ensures n <= |s|
    ensures forall i :: 0 <= i < n ==> !IsSpace(s[i])
    ensures n < |s| ==> IsSpace(s[n])
  {
    if s != [] && !IsSpace(s[0]) then 1 + WordLength(s[1..]) else 0
  }

  /** Python's `str.split()` without a separator: the maximal runs of
      non-whitespace characters, in order. */
  function Split(s: string): (r: seq<string>)
    ensures forall i :: 0 <= i < |r| ==> IsWord(r[i])
    decreases |s|
  {
    var t := DropSpace(s);
    if t == [] then []
    else
      var n := WordLength(t);
      [t[..n]] + Split(t[n..])
  }

  /** The words joined by single spaces, the way a server writes a record. */
  function Join(ws: seq<string>): string {
    if ws == [] then ""
    else if |ws| == 1 then ws[0]
    else ws[0] + " " + Join(ws[1..])
  }

  lemma {:induction false} WordLengthOfWord(w: string, rest: string)
    requires IsWord(w)
    requires rest == [] || IsSpace(rest[0])
    ensures WordLength(w + rest) == |w|
    decreases |w|
  {
    if |w| > 1 {
      assert (w + rest)[1..] == w[1..] + rest;
      WordLengthOfWord(w[1..], rest);
    } else {
      assert (w + rest)[1..] == rest;
    }
  }

  /** A word followed by whitespace (or nothing) is split off as one token. */
  lemma SplitWord(w: string, rest: string)
    requires IsWord(w)
    requires rest == [] || IsSpace(rest[0])
    ensures Split(w + rest) == [w] + Split(rest)
  {
    var s := w + rest;
    assert DropSpace(s) == s;
    WordLengthOfWord(w, rest);
    assert s[..|w|] == w;
    assert s[|w|..] == rest;
  }

  /** A leading space does not change the tokens. */
  lemma SplitSpace(x: string)
    ensures Split(" " + x) == Split(x)
  {
    assert (" " + x)[1..] == x;
    assert DropSpace(" " + x) == DropSpace(x);
  }

  /** Splitting a space-joined record gives back its words. */
  lemma {:induction false} SplitJoin(ws: seq<string>)
    requires forall i :: 0 <= i < |ws| ==> IsWord(ws[i])
    ensures Split(Join(ws)) == ws
  {
    if |ws| == 1 {
      SplitWord(ws[0], "");
      assert ws[0] + "" == ws[0];
    } else if |ws| > 1 {
      var rest := " " + Join(ws[1..]);
      assert Join(ws) == ws[0] + rest;
      SplitWord(ws[0], rest);
      SplitSpace(Join(ws[1..]));
      SplitJoin(ws[1..]);
      assert ws == [ws[0]] + ws[1..];
    }
  }

  predicate IsDigit(c: char) {
    '0' <= c <= '9'
  }

  predicate AllDigits(s: string) {
    forall i :: 0 <= i < |s| ==> IsDigit(s[i])
  }

  /** The value of a string of decimal digits, most significant first. */
  function DigitsValue(s: string): nat
    requires AllDigits(s)
  {
    if s == [] then 0 else 10 * DigitsValue(s[..|s| - 1]) + (s[|s| - 1] as int - '0' as int)
  }

  /** Python's `int(token)` for a token without surrounding whitespace: an
      optional sign and then one or more decimal digits; None stands for the
      ValueError int() raises on anything else. */
  function ParseInt(s: string): Option<int> {
    if |s| > 0 && (s[0] == '+' || s[0] == '-') then
      var d := s[1..];
      if |d| > 0 && AllDigits(d) then
        var v: int := DigitsValue(d);
        Some(if s[0] == '-' then -v else v)
      else None
    else if |s| > 0 && AllDigits(s) then Some(DigitsValue(s))
    else None
  }

  /** Python's `int(s)` on a whole string: surrounding whitespace is ignored,
      inner whitespace is an error. */
  function IntOf(s: string): Option<int> {
    var ws := Split(s);
    if |ws| == 1 then ParseInt(ws[0]) else None
  }

  function Digit(d: nat): char
    requires d < 10
  {
    ('0' as int + d) as char
  }

  /** The decimal text of n, as `str(n)` writes it. */
  function ShowNat(n: nat): (s: string)
    ensures |s| > 0 && AllDigits(s)
  {
    if n < 10 then [Digit(n)] else ShowNat(n / 10) + [Digit(n % 10)]
  }

  function ShowInt(i: int): string {
    if i < 0 then "-" + ShowNat(-i) else ShowNat(i)
  }

  lemma {:induction false} DigitsValueShowNat(n: nat)
    ensures DigitsValue(ShowNat(n)) == n
  {
    if n >= 10 {
      var s := ShowNat(n);
      assert s[..|s| - 1] == ShowNat(n / 10);
      DigitsValueShowNat(n / 10);
    }
  }

  /** `int(str(i)) == i`. */
  lemma ParseShowInt(i: int)
    ensures ParseInt(ShowInt(i)) == Some(i)
  {
    var s := ShowInt(i);
    if i < 0 {
      DigitsValueShowNat(-i);
      assert s[0] == '-';
      assert s[1..] == ShowNat(-i);
      var v: int := DigitsValue(ShowNat(-i));
      assert ParseInt(s) == Some(-v);
    } else {
      DigitsValueShowNat(i);
      assert s[0] != '+' && s[0] != '-';
      assert ParseInt(s) == Some(DigitsValue(ShowNat(i)));
    }
  }

  /** `str(i)` holds no whitespace, so it is a single token. */
  lemma ShowIntIsWord(i: int)
    ensures IsWord(ShowInt(i))
  {
    var s := ShowInt(i);
    forall k | 0 <= k < |s| ensures !IsSpace(s[k]) {
      if i < 0 && k > 0 {
        assert s[k] == ShowNat(-i)[k - 1];
      }
    }
  }

  /** The first k values of one record: `int(temp[ind_2])` for ind_2 < k.
      A missing token is an IndexError, a token int() refuses a ValueError;
      the first failing position decides. */
  function DecodeRow(tokens: seq<string>, k: nat): (r: Result<seq<int>>)
    ensures r.Ok? ==> |r.value| == k
  {
    if k == 0 then Ok([])
    else match DecodeRow(tokens, k - 1)
      case Err(e) => Err(e)
      case Ok(row) =>
        if k - 1 >= |tokens| then Err(IndexError)
        else match ParseInt(tokens[k - 1])
          case None => Err(ValueError)
          case Some(v) => Ok(row + [v])
  }

  /** The first `shots` rows of the sample matrix, each of `numObs` values.
      `results[ind_1]` is read (and split) even when numObs is 0, so a
      missing record is an IndexError in every case. */
  function DecodeMemory(memory: seq<string>, shots: nat, numObs: nat): (r: Result<seq<seq<int>>>)
    ensures r.Ok? ==> |r.value| == shots && forall i :: 0 <= i < shots ==> |r.value[i]| == numObs
  {
    if shots == 0 then Ok([])
    else match DecodeMemory(memory, shots - 1, numObs)
      case Err(e) => Err(e)
      case Ok(rows) =>
        if shots - 1 >= |memory| then Err(IndexError)
        else match DecodeRow(Split(memory[shots - 1]), numObs)
          case Err(e) => Err(e)
          case Ok(row) => Ok(rows + [row])
  }

  /** The first k tokens are present and int() accepts each of them. */
  predicate RowDecodable(tokens: seq<string>, k: nat) {
    k <= |tokens| && forall j :: 0 <= j < k ==> ParseInt(tokens[j]).Some?
  }

  /** Every record the loops read exists, has at least numObs tokens, and
      int() accepts each token read. */
  predicate Decodable(memory: seq<string>, shots: nat, numObs: nat) {
    shots <= |memory| && forall i :: 0 <= i < shots ==> RowDecodable(Split(memory[i]), numObs)
  }

  /** One record decodes exactly when its first k tokens are integers, and
      then value j is the integer value of token j. */
  lemma {:induction false} DecodeRowCharacterised(tokens: seq<string>, k: nat)
    ensures DecodeRow(tokens, k).Ok? <==> RowDecodable(tokens, k)
    ensures DecodeRow(tokens, k).Ok? ==>
      forall j :: 0 <= j < k ==> DecodeRow(tokens, k).value[j] == ParseInt(tokens[j]).value
  {
    if k > 0 {
      DecodeRowCharacterised(tokens, k - 1);
    }
  }

  /** Every record the loops read exists and decodes on its own. */
  predicate RowsDecode(memory: seq<string>, shots: nat, numObs: nat) {
    shots <= |memory| && forall i :: 0 <= i < shots ==> DecodeRow(Split(memory[i]), numObs).Ok?
  }

  /** The matrix decodes exactly when every record it reads decodes, and then
      row i is record i decoded. */
  lemma {:induction false} DecodeMemoryByRows(memory: seq<string>, shots: nat, numObs: nat)
    ensures DecodeMemory(memory, shots, numObs).Ok? <==> RowsDecode(memory, shots, numObs)
    ensures DecodeMemory(memory, shots, numObs).Ok? ==>
      forall i :: 0 <= i < shots ==>
        DecodeMemory(memory, shots, numObs).value[i] == DecodeRow(Split(memory[i]), numObs).value
  {
    if shots > 0 {
      var n := shots - 1;
      DecodeMemoryByRows(memory, n, numObs);
      var prev := DecodeMemory(memory, n, numObs);
      if prev.Err? {
        assert !RowsDecode(memory, n, numObs);
        assert !RowsDecode(memory, shots, numObs);
      } else if n < |memory| {
        var row := DecodeRow(Split(memory[n]), numObs);
        if row.Err? {
          assert !RowsDecode(memory, shots, numObs);
        } else {
          var rows := DecodeMemory(memory, shots, numObs).value;
          assert rows == prev.value + [row.value];
          forall i | 0 <= i < shots
            ensures rows[i] == DecodeRow(Split(memory[i]), numObs).value
          {
            if i < n {
              assert rows[i] == prev.value[i];
            }
          }
          assert RowsDecode(memory, shots, numObs);
        }
      }
    }
  }

  /** Decoding succeeds exactly on decodable replies, and then entry (i, j)
      is the integer value of the j-th token of record i: tokens past numObs
      and records past `shots` are never looked at. */
  lemma DecodeMemoryCharacterised(memory: seq<string>, shots: nat, numObs: nat)
    ensures DecodeMemory(memory, shots, numObs).Ok? <==> Decodable(memory, shots, numObs)
    ensures DecodeMemory(memory, shots, numObs).Ok? ==>
      forall i, j :: 0 <= i < shots && 0 <= j < numObs ==>
        DecodeMemory(memory, shots, numObs).value[i][j] == ParseInt(Split(memory[i])[j]).value
  {
    DecodeMemoryByRows(memory, shots, numObs);
    forall i | 0 <= i < shots && i < |memory| {
      DecodeRowCharacterised(Split(memory[i]), numObs);
    }
  }

  /** A record with too few tokens, or fewer records than shots, is an error:
      nothing is truncated or padded. */
  lemma ShortReplyFails(memory: seq<string>, shots: nat, numObs: nat, i: nat)
    requires i < shots
    requires i >= |memory| || |Split(memory[i])| < numObs
    ensures DecodeMemory(memory, shots, numObs).Err?
  {
    DecodeMemoryCharacterised(memory, shots, numObs);
    if shots <= |memory| {
      assert !RowDecodable(Split(memory[i]), numObs);
    }
  }

  /** The record a server writes for one shot: the values joined by spaces. */
  function EncodeRecord(row: seq<int>): string {
    Join(seq(|row|, j requires 0 <= j < |row| => ShowInt(row[j])))
  }

  lemma SplitEncodeRecord(row: seq<int>)
    ensures Split(EncodeRecord(row)) == seq(|row|, j requires 0 <= j < |row| => ShowInt(row[j]))
  {
    var ws := seq(|row|, j requires 0 <= j < |row| => ShowInt(row[j]));
    forall j | 0 <= j < |ws| ensures IsWord(ws[j]) {
      ShowIntIsWord(row[j]);
    }
    SplitJoin(ws);
  }

  /** Decoding one written record gives back its first k values. */
  lemma DecodeEncodeRecord(row: seq<int>, k: nat)
    requires k <= |row|
    ensures DecodeRow(Split(EncodeRecord(row)), k) == Ok(row[..k])
  {
    var tokens := Split(EncodeRecord(row));
    SplitEncodeRecord(row);
    assert |tokens| == |row|;
    forall j | 0 <= j < |row| ensures ParseInt(tokens[j]) == Some(row[j]) {
      assert tokens[j] == ShowInt(row[j]);
      ParseShowInt(row[j]);
    }
    DecodeRowCharacterised(tokens, k);
    var r := DecodeRow(tokens, k);
    assert r.Ok?;
    assert r.value == row[..k];
  }

  /** Round trip: decoding the records of an N × M matrix with M observed
      wires gives the matrix back; with k <= M observed wires it gives each
      row's first k values (the extra tokens are ignored). */
  lemma DecodeEncode(m: seq<seq<int>>, width: nat, k: nat)
    requires forall i :: 0 <= i < |m| ==> |m[i]| == width
    requires k <= width
    ensures DecodeMemory(seq(|m|, i requires 0 <= i < |m| => EncodeRecord(m[i])), |m|, k)
      == Ok(seq(|m|, i requires 0 <= i < |m| => m[i][..k]))
  {
    var memory := seq(|m|, i requires 0 <= i < |m| => EncodeRecord(m[i]));
    var want := seq(|m|, i requires 0 <= i < |m| => m[i][..k]);
    forall i | 0 <= i < |m| ensures DecodeRow(Split(memory[i]), k) == Ok(want[i]) {
      DecodeEncodeRecord(m[i], k);
    }
    DecodeMemoryByRows(memory, |m|, k);
    var r := DecodeMemory(memory, |m|, k);
    assert r.Ok?;
    assert r.value == want;
  }

  lemma {:induction false} RowErrorPersists(tokens: seq<string>, k: nat, k': nat)
    requires k <= k'
    requires DecodeRow(tokens, k).Err?
    ensures DecodeRow(tokens, k') == DecodeRow(tokens, k)
    decreases k' - k
  {
    if k < k' {
      RowErrorPersists(tokens, k, k' - 1);
    }
  }

  lemma {:induction false} MemoryErrorPersists(memory: seq<string>, s: nat, s': nat, numObs: nat)
    requires s <= s'
    requires DecodeMemory(memory, s, numObs).Err?
    ensures DecodeMemory(memory, s', numObs) == DecodeMemory(memory, s, numObs)
    decreases s' - s
  {
    if s < s' {
      MemoryErrorPersists(memory, s, s' - 1, numObs);
    }
  }

  /** The inner loop of the decoding: parses the first `out.Length1` tokens
      of one record into row i of `out`, leaving the other rows alone. */
  method DecodeRecordInto(out: array2<int>, i: nat, tokens: seq<string>) returns (r: Result<seq<int>>)
    requires i < out.Length0
    modifies out
    ensures r == DecodeRow(tokens, out.Length1)
    ensures r.Ok? ==> forall b :: 0 <= b < out.Length1 ==> out[i, b] == r.value[b]
    ensures forall a, b :: 0 <= a < out.Length0 && a != i && 0 <= b < out.Length1 ==>
      out[a, b] == old(out[a, b])
  {
    var row: seq<int> := [];
    var j := 0;
    while j < out.Length1
      invariant 0 <= j <= out.Length1
      invariant DecodeRow(tokens, j) == Ok(row)
      invariant forall b :: 0 <= b < j ==> out[i, b] == row[b]
      invariant forall a, b :: 0 <= a < out.Length0 && a != i && 0 <= b < out.Length1 ==>
        out[a, b] == old(out[a, b])
    {
      if j >= |tokens| {
        RowErrorPersists(tokens, j + 1, out.Length1);
        return Err(IndexError);
      }
      var v := ParseInt(tokens[j]);
      if v.None? {
        RowErrorPersists(tokens, j + 1, out.Length1);
        return Err(ValueError);
      }
      out[i, j] := v.value;
      row := row + [v.value];
      j := j + 1;
    }
    return Ok(row);
  }

  /** The decoding loop of `pre_measure`: fills a zeroed shots × numObs
      matrix record by record and column by column, failing exactly where
      DecodeMemory fails. */
  method DecodeShots(memory: seq<string>, shots: nat, numObs: nat) returns (r: Result<seq<seq<int>>>)
    ensures r == DecodeMemory(memory, shots, numObs)
  {
    var out := new int[shots, numObs]((_, _) => 0);
    ghost var rows: seq<seq<int>> := [];
    var i := 0;
    while i < shots
      invariant 0 <= i <= shots
      invariant DecodeMemory(memory, i, numObs) == Ok(rows)
      invariant forall a, b :: 0 <= a < i && 0 <= b < numObs ==> out[a, b] == rows[a][b]
    {
      if i >= |memory| {
        MemoryErrorPersists(memory, i + 1, shots, numObs);
        return Err(IndexError);
      }
      var row := DecodeRecordInto(out, i, Split(memory[i]));
      if row.Err? {
        MemoryErrorPersists(memory, i + 1, shots, numObs);
        return Err(row.error);
      }
      assert DecodeMemory(memory, i + 1, numObs) == Ok(rows + [row.value]);
      rows := rows + [row.value];
      forall a, b | 0 <= a < i + 1 && 0 <= b < numObs ensures out[a, b] == rows[a][b] {
        if a == i {
          assert rows[a] == row.value;
        }
      }
      i := i + 1;
    }
    var m := seq(shots, a requires 0 <= a < shots reads out =>
      seq(numObs, b requires 0 <= b < numObs reads out => out[a, b]));
    assert m == rows by {
      forall a | 0 <= a < shots ensures m[a] == rows[a] {
        assert |rows[a]| == numObs;
      }
    }
    r := Ok(m);
  }
}
