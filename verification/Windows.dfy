/** The overlapping window splitter (chunkText in the chunker worker) and what it promises of a text. */
module Windows {
  import opened Text

  /** The windows of a text: `size` runes each, every one starting `overlap` runes before the end of the last. */
  function Windows(s: string, size: int, overlap: int): (ws: seq<string>)
    requires 0 <= overlap < size
    decreases |s|
  {
    if s == "" then []
    else if |s| <= size then [s]
    else [s[..size]] + Windows(s[size - overlap..], size, overlap)
  }

  /** The loop as the worker runs it. */
  method ChunkText(text: string, chunkSize: int, overlap: int) returns (chunks: seq<string>)
    requires 0 <= overlap < chunkSize
    ensures chunks == Windows(text, chunkSize, overlap)
  {
    chunks := [];
    var i := 0;
    while i < |text|
      invariant 0 <= i <= |text|
      invariant chunks + Windows(text[i..], chunkSize, overlap) == Windows(text, chunkSize, overlap)
      decreases |text| - i
    {
      var end := i + chunkSize;
      if end > |text| {
        end := |text|;
      }
      ghost var rest := text[i..];
      chunks := chunks + [text[i..end]];
      if end == |text| {
        assert rest == text[i..end];
        break;
      }
      assert rest[..chunkSize] == text[i..end];
      assert rest[chunkSize - overlap..] == text[end - overlap..];
      i := end - overlap;
    }
  }

  /** Concatenation of what each window adds to the one before it. */
  function Fresh(ws: seq<string>, overlap: nat): string {
    if ws == [] then ""
    else (if overlap <= |ws[0]| then ws[0][overlap..] else "") + Fresh(ws[1..], overlap)
  }

  /** The first window followed by every later one without its first `overlap` runes. */
  function Rejoin(ws: seq<string>, overlap: nat): string {
    if ws == [] then "" else ws[0] + Fresh(ws[1..], overlap)
  }

  lemma {:induction false} FreshOfWindows(s: string, size: int, overlap: int)
    requires 0 <= overlap < size && overlap <= |s|
    ensures Fresh(Windows(s, size, overlap), overlap) == s[overlap..]
    decreases |s|
  {
    if |s| > size {
      var t := s[size - overlap..];
      FreshOfWindows(t, size, overlap);
      assert t[overlap..] == s[size..];
      assert s[..size][overlap..] + s[size..] == s[overlap..];
    } else if s != "" {
      assert Windows(s, size, overlap)[1..] == [];
      assert s[overlap..] + "" == s[overlap..];
    }
  }

  /** Splitting loses nothing: the text is rebuilt from its windows. */
  lemma {:induction false} WindowsRejoin(s: string, size: int, overlap: int)
    requires 0 <= overlap < size
    ensures Rejoin(Windows(s, size, overlap), overlap) == s
  {
    if |s| > size {
      var t := s[size - overlap..];
      FreshOfWindows(t, size, overlap);
      assert t[overlap..] == s[size..];
      assert s[..size] + s[size..] == s;
    } else if s != "" {
      assert Windows(s, size, overlap)[1..] == [];
    }
  }

  /** Rounding up, for a positive divisor. */
  function CeilDiv(a: int, b: int): int
    requires 0 < b
  {
    (a + b - 1) / b
  }

  function ExpectedCount(n: nat, size: int, overlap: int): int
    requires 0 <= overlap < size
  {
    if n == 0 then 0
    else if n <= overlap then 1
    else CeilDiv(n - overlap, size - overlap)
  }

  lemma MulAtLeast(x: int, b: int)
    requires 0 < b
    ensures 1 <= x ==> b <= x * b
    ensures x <= -1 ==> x * b <= -b
  {
  }

  lemma CeilDivUnique(a: int, b: int, c: int)
    requires 0 < b && (c - 1) * b < a <= c * b
    ensures CeilDiv(a, b) == c
  {
    var n := a + b - 1;
    var q := n / b;
    assert n == b * q + n % b;
    assert (c - q) * b == c * b - b * q;
    MulAtLeast(c - q, b);
  }

  /** The number of windows in closed form: none, one, or the ceiling of (n - overlap) / (size - overlap). */
  lemma {:induction false} WindowsCount(s: string, size: int, overlap: int)
    requires 0 <= overlap < size
    ensures |Windows(s, size, overlap)| == ExpectedCount(|s|, size, overlap)
  {
    if |s| > overlap {
      WindowsCountBounds(s, size, overlap);
      CeilDivUnique(|s| - overlap, size - overlap, |Windows(s, size, overlap)|);
    }
  }

  lemma {:induction false} WindowsCountBounds(s: string, size: int, overlap: int)
    requires 0 <= overlap < size && overlap < |s|
    ensures var c, d := |Windows(s, size, overlap)|, size - overlap;
            (c - 1) * d < |s| - overlap <= c * d
    decreases |s|
  {
    if |s| > size {
      var d := size - overlap;
      var t := s[d..];
      WindowsCountBounds(t, size, overlap);
      var c := |Windows(t, size, overlap)|;
      assert c * d == (c - 1) * d + d && (c + 1) * d == c * d + d;
    }
  }

  /** Window k is the stretch of the text that starts k steps in. */
  lemma {:induction false} WindowAt(s: string, size: int, overlap: int, k: nat)
    requires 0 <= overlap < size && k < |Windows(s, size, overlap)|
    ensures var a := k * (size - overlap);
            0 <= a <= |s| && Windows(s, size, overlap)[k] == s[a..if a + size < |s| then a + size else |s|]
    decreases k
  {
    var d := size - overlap;
    if k > 0 {
      WindowAt(s[d..], size, overlap, k - 1);
      assert k * d == (k - 1) * d + d;
    }
  }

  /** A window is never longer than `size` runes. */
  lemma WindowLength(s: string, size: int, overlap: int, k: nat)
    requires 0 <= overlap < size && k < |Windows(s, size, overlap)|
    ensures 1 <= |Windows(s, size, overlap)[k]| <= size
    decreases |s|
  {
    if k > 0 { WindowLength(s[size - overlap..], size, overlap, k - 1); }
  }

  /** A run of at most overlap + 1 runes, wherever it stands, lies whole inside one window. */
  lemma {:induction false} RunInOneWindow(s: string, size: int, overlap: int, a: nat, b: nat) returns (k: nat, off: nat)
    requires 0 <= overlap < size
    requires a < b <= |s| && b - a <= overlap + 1
    ensures k < |Windows(s, size, overlap)|
    ensures off + (b - a) <= |Windows(s, size, overlap)[k]|
    ensures Windows(s, size, overlap)[k][off..off + (b - a)] == s[a..b]
    decreases |s|
  {
    if |s| <= size || b <= size {
      k, off := 0, a;
      assert Windows(s, size, overlap)[0] == if |s| <= size then s else s[..size];
    } else {
      var d := size - overlap;
      k, off := RunInOneWindow(s[d..], size, overlap, a - d, b - d);
      k := k + 1;
      assert s[d..][a - d..b - d] == s[a..b];
    }
  }

  /** One rune more and the guarantee fails: every text longer than a window has such a run, cut by all windows. */
  lemma RunBoundIsTight(s: string, size: int, overlap: int, k: nat)
    requires 0 <= overlap < size < |s| && k < |Windows(s, size, overlap)|
    ensures var start := k * (size - overlap); var a := size - overlap - 1;
            !(start <= a && a + overlap + 2 <= start + |Windows(s, size, overlap)[k]|)
  {
    WindowLength(s, size, overlap, k);
    var d := size - overlap;
    if k == 0 {
      assert k * d == 0;
    } else {
      assert k * d >= d;
    }
  }

  /** The windows the worker publishes: those that are not blank, in order. */
  function NonBlank(ws: seq<string>): seq<string> {
    if ws == [] then []
    else if TrimSpace(ws[|ws| - 1]) == "" then NonBlank(ws[..|ws| - 1])
    else NonBlank(ws[..|ws| - 1]) + [ws[|ws| - 1]]
  }

  lemma {:induction false} NonBlankMembers(ws: seq<string>, t: string)
    ensures t in NonBlank(ws) <==> t in ws && TrimSpace(t) != ""
  {
    if ws != [] {
      NonBlankMembers(ws[..|ws| - 1], t);
      assert ws == ws[..|ws| - 1] + [ws[|ws| - 1]];
    }
  }

  lemma {:induction false} NonBlankPrefix(ws: seq<string>, i: nat)
    requires i <= |ws|
    ensures NonBlank(ws[..i]) <= NonBlank(ws)
  {
    if i < |ws| {
      var init := ws[..|ws| - 1];
      NonBlankPrefix(init, i);
      assert init[..i] == ws[..i];
    } else {
      assert ws[..i] == ws;
    }
  }

  const CHUNK_SIZE := 500
  const OVERLAP := 50

  /** What the worker publishes of a text. */
  function Published(text: string): seq<string> {
    NonBlank(Windows(text, CHUNK_SIZE, OVERLAP))
  }

  /** Window k of a text, in numbers: it starts 450 runes after the last and has 500 runes, or what is left. */
  function WindowText(text: string, k: nat): string
    requires 450 * k <= |text|
  {
    text[450 * k..if 450 * k + 500 < |text| then 450 * k + 500 else |text|]
  }

  /** There is a window k if the one before it does not reach the end. */
  predicate HasWindow(text: string, k: nat) {
    text != "" && (k == 0 || 450 * (k - 1) + 500 < |text|)
  }

  lemma {:induction false} HasWindowIff(text: string, k: nat)
    ensures k < |Windows(text, CHUNK_SIZE, OVERLAP)| <==> HasWindow(text, k)
    decreases k
  {
    if k > 0 && |text| > 500 {
      HasWindowIff(text[450..], k - 1);
    }
  }

  /** The windows in closed form: which there are, and what each of them reads. */
  lemma WindowInNumbers(text: string, k: nat)
    ensures k < |Windows(text, CHUNK_SIZE, OVERLAP)| <==> HasWindow(text, k)
    ensures HasWindow(text, k) ==> 450 * k <= |text| && Windows(text, CHUNK_SIZE, OVERLAP)[k] == WindowText(text, k)
  {
    HasWindowIff(text, k);
    if HasWindow(text, k) {
      WindowAt(text, CHUNK_SIZE, OVERLAP, k);
    }
  }

  /** Exactly the windows that are not white space are published. */
  lemma PublishedExactly(text: string, t: string)
    ensures t in Published(text) <==>
            !AllSpace(t) && exists k: nat :: HasWindow(text, k) && 450 * k <= |text| && t == WindowText(text, k)
  {
    var ws := Windows(text, CHUNK_SIZE, OVERLAP);
    NonBlankMembers(ws, t);
    BlankIffAllSpace(t);
    if t in ws {
      var k :| 0 <= k < |ws| && ws[k] == t;
      WindowInNumbers(text, k);
    }
    if k: nat :| HasWindow(text, k) && 450 * k <= |text| && t == WindowText(text, k) {
      WindowInNumbers(text, k);
      assert ws[k] in ws;
    }
  }

  /** Every phrase of up to 51 runes that is not all white space survives whole in a published chunk. */
  lemma PhraseSurvives(text: string, a: nat, b: nat) returns (chunk: string)
    requires a < b <= |text| && b - a <= 51
    requires !AllSpace(text[a..b])
    ensures chunk in Published(text) && Contains(chunk, text[a..b])
  {
    var k, off := RunInOneWindow(text, CHUNK_SIZE, OVERLAP, a, b);
    chunk := Windows(text, CHUNK_SIZE, OVERLAP)[k];
    assert OccursAt(chunk, text[a..b], off);
    PartNotBlank(chunk, off, b - a);
    BlankIffAllSpace(chunk);
    NonBlankMembers(Windows(text, CHUNK_SIZE, OVERLAP), chunk);
  }

  lemma PartNotBlank(s: string, off: nat, n: nat)
    requires off + n <= |s| && !AllSpace(s[off..off + n])
    ensures !AllSpace(s)
  {
    var i :| 0 <= i < n && !IsSpace(s[off..off + n][i]);
    assert !IsSpace(s[off + i]);
  }

  /** A published chunk is between one and 500 runes long, hence at most 2000 bytes. */
  lemma PublishedSize(text: string, t: string)
    requires t in Published(text)
    ensures 1 <= |t| <= 500 && Utf8Size(t) <= 2000
  {
    var ws := Windows(text, CHUNK_SIZE, OVERLAP);
    NonBlankMembers(ws, t);
    var k :| 0 <= k < |ws| && ws[k] == t;
    WindowLength(text, CHUNK_SIZE, OVERLAP, k);
    Utf8SizeBounds(t);
  }
}
