/** The marked block the Wi-Fi helper keeps in wpa_supplicant.conf: rewriting one
    marked region of an arbitrary text. */
module WifiConfig {
  import opened Prelude

  const BEGIN := "# BEGIN PROGRESS_CLAW_MANAGED_WIFI"
  const END := "# END PROGRESS_CLAW_MANAGED_WIFI"

  // ------------------------------------------------------------------ search

  predicate At(text: string, m: string, i: int) {
    0 <= i && i + |m| <= |text| && text[i..i + |m|] == m
  }

  /** str.find: the first occurrence at or after `start`, or -1. */
  function Find(text: string, m: string, start: nat): (i: int)
    ensures i == -1 || (start <= i && At(text, m, i) && forall j :: start <= j < i ==> !At(text, m, j))
    ensures i == -1 ==> forall j :: start <= j ==> !At(text, m, j)
    decreases |text| + 1 - start
  {
    if start + |m| > |text| || start > |text| then -1
    else if text[start..start + |m|] == m then start
    else Find(text, m, start + 1)
  }

  ghost predicate Absent(text: string, m: string) {
    forall i :: !At(text, m, i)
  }

  ghost predicate Only(text: string, m: string, p: int) {
    At(text, m, p) && forall i :: At(text, m, i) ==> i == p
  }

  // ------------------------------------------------------------------- block

  function HexDigit(n: nat): (c: char)
    requires n < 16
    ensures c != '#' && c != '\n'
  {
    if n < 10 then '0' + n as char else 'a' + (n - 10) as char
  }

  function Hex(bytes: seq<Byte>): (s: string)
    ensures |s| == 2 * |bytes|
    ensures forall i :: 0 <= i < |s| ==> s[i] != '#' && s[i] != '\n'
  {
    if bytes == [] then "" else [HexDigit(bytes[0] / 16), HexDigit(bytes[0] % 16)] + Hex(bytes[1..])
  }

  /** A network: the bytes of its name and of the key derived from its password. */
  datatype Network = Network(ssid: seq<Byte>, psk: seq<Byte>)

  const MANAGED_ID := "progress-claw-admin"
  const HEAD := "\nnetwork={\n    ssid="
  const MIDDLE := "\n    psk="
  const KEY_MANAGEMENT := "\n    key_mgmt=WPA-PSK"
  const OPTIONS := "\n    scan_ssid=1\n    priority=100"
  const TAIL := "\n    id_str=\"progress-claw-admin\"\n}\n"

  function Body(n: Network): string {
    HEAD + Hex(n.ssid) + MIDDLE + Hex(n.psk) + KEY_MANAGEMENT + OPTIONS + TAIL
  }

  function ManagedBlock(n: Network): string {
    BEGIN + Body(n) + END
  }

  /** The value of a lower-case hexadecimal digit. */
  function DigitValue(c: char): int {
    if '0' <= c <= '9' then c as int - '0' as int
    else if 'a' <= c <= 'f' then c as int - 'a' as int + 10
    else -1
  }

  /** Two digits a byte, in order, the high one first. */
  lemma {:induction false} HexReads(bytes: seq<Byte>, i: nat)
    requires i < |bytes|
    ensures var high, low := DigitValue(Hex(bytes)[2 * i]), DigitValue(Hex(bytes)[2 * i + 1]);
            0 <= high < 16 && 0 <= low < 16 && bytes[i] == 16 * high + low
  {
    if i > 0 {
      HexReads(bytes[1..], i - 1);
      assert Hex(bytes)[2..] == Hex(bytes[1..]);
      assert Hex(bytes)[2 * i] == Hex(bytes)[2..][2 * (i - 1)];
      assert Hex(bytes)[2 * i + 1] == Hex(bytes)[2..][2 * (i - 1) + 1];
    }
  }

  function Join(lines: seq<string>): string
    requires lines != []
  {
    if |lines| == 1 then lines[0] else Join(lines[..|lines| - 1]) + "\n" + lines[|lines| - 1]
  }

  function BlockLines(n: Network, id: string): seq<string> {
    [BEGIN, "network={", "    ssid=" + Hex(n.ssid), "    psk=" + Hex(n.psk), "    key_mgmt=WPA-PSK",
     "    scan_ssid=1", "    priority=100", "    id_str=\"" + id + "\"", "}", END]
  }

  lemma JoinOne(lines: seq<string>, last: string)
    requires lines != []
    ensures Join(lines + [last]) == Join(lines) + "\n" + last
  {
    assert (lines + [last])[..|lines|] == lines;
  }

  lemma JoinTen(a: string, b: string, c: string, d: string, e: string, f: string, g: string, h: string, i: string,
                j: string)
    ensures Join([a, b, c, d, e, f, g, h, i, j]) ==
              a + "\n" + b + "\n" + c + "\n" + d + "\n" + e + "\n" + f + "\n" + g + "\n" + h + "\n" + i + "\n" + j
  {
    hide Join;
    JoinFive(a, b, c, d, e);
    JoinOne([a, b, c, d, e], f);
    assert [a, b, c, d, e] + [f] == [a, b, c, d, e, f];
    JoinOne([a, b, c, d, e, f], g);
    assert [a, b, c, d, e, f] + [g] == [a, b, c, d, e, f, g];
    JoinOne([a, b, c, d, e, f, g], h);
    assert [a, b, c, d, e, f, g] + [h] == [a, b, c, d, e, f, g, h];
    JoinOne([a, b, c, d, e, f, g, h], i);
    assert [a, b, c, d, e, f, g, h] + [i] == [a, b, c, d, e, f, g, h, i];
    JoinOne([a, b, c, d, e, f, g, h, i], j);
    assert [a, b, c, d, e, f, g, h, i] + [j] == [a, b, c, d, e, f, g, h, i, j];
  }

  lemma JoinFive(a: string, b: string, c: string, d: string, e: string)
    ensures Join([a, b, c, d, e]) == a + "\n" + b + "\n" + c + "\n" + d + "\n" + e
  {
    assert Join([a]) == a;
    hide Join;
    JoinOne([a], b);
    assert [a] + [b] == [a, b];
    JoinOne([a, b], c);
    assert [a, b] + [c] == [a, b, c];
    JoinOne([a, b, c], d);
    assert [a, b, c] + [d] == [a, b, c, d];
    JoinOne([a, b, c, d], e);
    assert [a, b, c, d] + [e] == [a, b, c, d, e];
  }

  lemma Pieces()
    ensures HEAD == "\n" + "network={" + "\n" + "    ssid="
    ensures MIDDLE == "\n" + "    psk="
    ensures KEY_MANAGEMENT == "\n" + "    key_mgmt=WPA-PSK"
  {
  }

  lemma OptionPieces()
    ensures OPTIONS == "\n" + "    scan_ssid=1" + "\n" + "    priority=100"
  {
  }

  lemma LastPieces()
    ensures TAIL == "\n" + ("    id_str=\"" + MANAGED_ID + "\"") + "\n" + "}" + "\n"
  {
  }

  lemma FromPieces(a: string, b: string, c0: string, c1: string, d0: string, d1: string, e: string, f: string,
                   g: string, h: string, i: string, j: string,
                   head: string, middle: string, key: string, options: string, tail: string)
    requires head == "\n" + b + "\n" + c0 && middle == "\n" + d0 && key == "\n" + e
    requires options == "\n" + f + "\n" + g && tail == "\n" + h + "\n" + i + "\n"
    ensures a + (head + c1 + middle + d1 + key + options + tail) + j
            == Join([a, b, c0 + c1, d0 + d1, e, f, g, h, i, j])
  {
    hide Join;
    JoinTen(a, b, c0 + c1, d0 + d1, e, f, g, h, i, j);
    Regrouped(a, b, c0, c1, d0, d1, e, f, g, h, i, j);
  }

  /** The block is its ten lines. */
  lemma BlockIsLines(n: Network)
    ensures ManagedBlock(n) == Join(BlockLines(n, MANAGED_ID))
  {
    hide Join, Hex;
    Pieces();
    OptionPieces();
    LastPieces();
    FromPieces(BEGIN, "network={", "    ssid=", Hex(n.ssid), "    psk=", Hex(n.psk), "    key_mgmt=WPA-PSK",
               "    scan_ssid=1", "    priority=100", "    id_str=\"" + MANAGED_ID + "\"", "}", END,
               HEAD, MIDDLE, KEY_MANAGEMENT, OPTIONS, TAIL);
  }

  lemma Regrouped(a: string, b: string, c0: string, c1: string, d0: string, d1: string, e: string, f: string,
                  g: string, h: string, i: string, j: string)
    ensures var nl := "\n";
            a + ((nl + b + nl + c0) + c1 + (nl + d0) + d1 + (nl + e) + (nl + f + nl + g) + (nl + h + nl + i + nl)) + j
            == a + nl + b + nl + (c0 + c1) + nl + (d0 + d1) + nl + e + nl + f + nl + g + nl + h + nl + i + nl + j
  {
  }

  lemma {:induction false} HexIsFaithful(a: seq<Byte>, b: seq<Byte>)
    requires Hex(a) == Hex(b)
    ensures a == b
  {
    if a != [] && b != [] {
      assert Hex(a)[0] == Hex(b)[0] && Hex(a)[1] == Hex(b)[1];
      assert Hex(a)[2..] == Hex(a[1..]) && Hex(b)[2..] == Hex(b[1..]);
      assert a[0] == a[0] / 16 * 16 + a[0] % 16 && b[0] == b[0] / 16 * 16 + b[0] % 16;
      HexIsFaithful(a[1..], b[1..]);
    }
  }

  lemma NewlineInside(x: string, r: string, y: string, s: string)
    requires x + r == y + s && |x| < |y| && r != [] && r[0] == '\n'
    ensures '\n' in y
  {
    assert y[|x|] == (y + s)[|x|] == (x + r)[|x|];
  }

  lemma SplitAtNewline(x: string, r: string, y: string, s: string)
    requires x + r == y + s && r != [] && s != [] && r[0] == s[0] == '\n'
    requires '\n' !in x && '\n' !in y
    ensures x == y && r == s
  {
    if |x| < |y| {
      NewlineInside(x, r, y, s);
    } else if |y| < |x| {
      NewlineInside(y, s, x, r);
    }
    assert x == (x + r)[..|x|] && y == (y + s)[..|y|];
    assert r == (x + r)[|x|..] && s == (y + s)[|y|..];
  }

  lemma DropHead(a: string, x: string, y: string)
    requires a + x == a + y
    ensures x == y
  {
    assert x == (a + x)[|a|..] && y == (a + y)[|a|..];
  }

  lemma SameParts(begin: string, head: string, x: string, y: string, mid: string, p: string, q: string,
                  k: string, o: string, t: string, end: string)
    requires begin + (head + x + mid + p + k + o + t) + end == begin + (head + y + mid + q + k + o + t) + end
    requires mid != [] && k != [] && mid[0] == k[0] == '\n'
    requires '\n' !in x && '\n' !in y && '\n' !in p && '\n' !in q
    ensures x == y && p == q
  {
    var tail := k + o + t + end;
    assert begin + (head + x + mid + p + k + o + t) + end == begin + (head + (x + (mid + (p + tail))));
    assert begin + (head + y + mid + q + k + o + t) + end == begin + (head + (y + (mid + (q + tail))));
    DropHead(begin, head + (x + (mid + (p + tail))), head + (y + (mid + (q + tail))));
    DropHead(head, x + (mid + (p + tail)), y + (mid + (q + tail)));
    SplitAtNewline(x, mid + (p + tail), y, mid + (q + tail));
    DropHead(mid, p + tail, q + tail);
    SplitAtNewline(p, tail, q, tail);
  }

  /** The block determines the network: no two networks are written alike. */
  lemma BlockIsFaithful(a: Network, b: Network)
    requires ManagedBlock(a) == ManagedBlock(b)
    ensures a == b
  {
    assert MIDDLE[0] == KEY_MANAGEMENT[0] == '\n';
    SameParts(BEGIN, HEAD, Hex(a.ssid), Hex(b.ssid), MIDDLE, Hex(a.psk), Hex(b.psk),
              KEY_MANAGEMENT, OPTIONS, TAIL, END);
    HexIsFaithful(a.ssid, b.ssid);
    HexIsFaithful(a.psk, b.psk);
  }

  // ------------------------------------------------------------------ update

  predicate IsSpace(c: char) {
    '\t' <= c <= '\r' || '\U{1c}' <= c <= ' ' || c == '\U{85}' || c == '\U{a0}' || c == '\U{1680}' ||
    '\U{2000}' <= c <= '\U{200a}' || c == '\U{2028}' || c == '\U{2029}' || c == '\U{202f}' ||
    c == '\U{205f}' || c == '\U{3000}'
  }

  /** str.rstrip */
  function RStrip(s: string): (r: string)
    ensures r <= s
    ensures r != [] ==> !IsSpace(r[|r| - 1])
    ensures forall i :: |r| <= i < |s| ==> IsSpace(s[i])
  {
    if s != [] && IsSpace(s[|s| - 1]) then RStrip(s[..|s| - 1]) else s
  }

  datatype ConfigError = InconsistentMarkers | MultipleBlocks

  function Update(existing: string, n: Network): Result<string, ConfigError> {
    var start := Find(existing, BEGIN, 0);
    var end := Find(existing, END, 0);
    if (start == -1) != (end == -1) then Err(InconsistentMarkers)
    else if start == -1 then Ok(RStrip(existing) + "\n\n" + ManagedBlock(n) + "\n")
    else if Find(existing, BEGIN, start + 1) != -1 || Find(existing, END, end + 1) != -1 then Err(MultipleBlocks)
    else Ok(existing[..start] + ManagedBlock(n) + existing[end + |END|..])
  }

  // ---------------------------------------------------- where markers can occur

  predicate IsMarker(m: string) {
    m == BEGIN || m == END
  }

  lemma MarkerShape(m: string)
    requires IsMarker(m)
    ensures |m| >= 3 && m[0] == '#'
    ensures forall k :: 0 < k < |m| ==> m[k] != '#'
    ensures forall k :: 0 <= k < |m| ==> m[k] != '\n'
    ensures m[2] == (if m == BEGIN then 'B' else 'E')
  {
  }

  lemma BodyHasNoHash(n: Network)
    ensures forall k :: 0 <= k < |Body(n)| ==> Body(n)[k] != '#'
  {
    assert forall k :: 0 <= k < |HEAD| ==> HEAD[k] != '#';
    assert forall k :: 0 <= k < |MIDDLE| ==> MIDDLE[k] != '#';
    assert forall k :: 0 <= k < |KEY_MANAGEMENT| ==> KEY_MANAGEMENT[k] != '#';
    assert forall k :: 0 <= k < |OPTIONS| ==> OPTIONS[k] != '#';
    assert forall k :: 0 <= k < |TAIL| ==> TAIL[k] != '#';
  }

  /** In a text, a marker starts with a '#' and shows no other. */
  lemma HashOnlyAtStart(text: string, m: string, i: int)
    requires IsMarker(m) && At(text, m, i)
    ensures |m| >= 3 && text[i] == '#' && text[i + 2] == (if m == BEGIN then 'B' else 'E')
    ensures forall q :: i < q < i + |m| ==> text[q] != '#'
    ensures forall q :: i <= q < i + |m| ==> text[q] != '\n'
  {
    MarkerShape(m);
    assert forall q :: i <= q < i + |m| ==> text[q] == m[q - i];
  }

  lemma InPrefix(x: string, p: nat, m: string, i: int)
    requires p <= |x|
    ensures At(x[..p], m, i) <==> At(x, m, i) && i + |m| <= p
  {
    if 0 <= i && i + |m| <= p {
      assert x[..p][i..i + |m|] == x[i..i + |m|];
    }
  }

  lemma InSuffix(x: string, p: nat, m: string, i: int)
    requires p <= |x|
    ensures At(x[p..], m, i) <==> At(x, m, i + p) && 0 <= i
  {
    if 0 <= i && i + p + |m| <= |x| {
      assert x[p..][i..i + |m|] == x[i + p..i + p + |m|];
    }
  }

  lemma BlockHashes(n: Network)
    ensures var block, h := ManagedBlock(n), |BEGIN| + |Body(n)|;
            && |block| == h + |END| && |END| >= 3 && |BEGIN| >= 3
            && block[0] == '#' && block[2] == 'B' && block[h + 2] == 'E'
            && forall k :: 0 <= k < |block| && block[k] == '#' ==> k == 0 || k == h
  {
    MarkerShape(BEGIN);
    MarkerShape(END);
    BodyHasNoHash(n);
    HashesOfParts(BEGIN, Body(n), END);
  }

  lemma HashesOfParts(a: string, b: string, c: string)
    requires |a| >= 3 && |c| >= 3 && a[0] == '#'
    requires forall k :: 0 < k < |a| ==> a[k] != '#'
    requires forall k :: 0 <= k < |b| ==> b[k] != '#'
    requires forall k :: 0 < k < |c| ==> c[k] != '#'
    ensures var s := a + b + c;
            && s[0] == '#' && s[2] == a[2] && s[|a| + |b| + 2] == c[2]
            && forall k :: 0 <= k < |s| && s[k] == '#' ==> k == 0 || k == |a| + |b|
  {
  }

  /** No marker straddles the seams of a piece that starts with '#', has at most
      one other '#', and tells BEGIN from END two characters on. */
  lemma NoStraddle(pre: string, block: string, post: string, h: nat, m: string, i: int)
    requires IsMarker(m) && At(pre + block + post, m, i)
    requires 3 <= h && h + 3 <= |block| && h + |END| == |block|
    requires block[0] == '#' && block[2] == 'B' && block[h + 2] == 'E'
    requires forall k :: 0 <= k < |block| && block[k] == '#' ==> k == 0 || k == h
    ensures || At(pre, m, i)
            || (m == BEGIN && i == |pre|)
            || (m == END && i == |pre| + h)
            || At(post, m, i - |pre| - |block|)
  {
    var text := pre + block + post;
    HashOnlyAtStart(text, m, i);
    assert text[|pre|] == block[0];
    assert text[..|pre|] == pre && text[|pre| + |block|..] == post;
    InPrefix(text, |pre|, m, i);
    InSuffix(text, |pre| + |block|, m, i - |pre| - |block|);
    if |pre| <= i < |pre| + |block| {
      var k := i - |pre|;
      assert text[i] == block[k];
      assert text[i + 2] == block[k + 2];
    }
  }

  /** A marker in a text around a block is a marker before it, one of the block's
      own two, or a marker after it. */
  lemma AroundBlock(pre: string, n: Network, post: string, m: string, i: int)
    requires IsMarker(m) && At(pre + ManagedBlock(n) + post, m, i)
    ensures || At(pre, m, i)
            || (m == BEGIN && i == |pre|)
            || (m == END && i == |pre| + |BEGIN| + |Body(n)|)
            || At(post, m, i - |pre| - |ManagedBlock(n)|)
  {
    BlockHashes(n);
    NoStraddle(pre, ManagedBlock(n), post, |BEGIN| + |Body(n)|, m, i);
  }

  lemma BlockMarkers(pre: string, n: Network, post: string)
    ensures var text := pre + ManagedBlock(n) + post;
            At(text, BEGIN, |pre|) && At(text, END, |pre| + |BEGIN| + |Body(n)|)
  {
    var text := pre + ManagedBlock(n) + post;
    assert text[|pre|..|pre| + |BEGIN|] == BEGIN;
    var e := |pre| + |BEGIN| + |Body(n)|;
    assert text[e..e + |END|] == END;
  }

  /** Markers before and after a block are still there in the whole text. */
  lemma OutsideSurvives(pre: string, mid: string, post: string, m: string, i: int)
    ensures At(pre, m, i) ==> At(pre + mid + post, m, i)
    ensures At(post, m, i) ==> At(pre + mid + post, m, i + |pre| + |mid|)
  {
    var text := pre + mid + post;
    if At(pre, m, i) {
      assert text[i..i + |m|] == pre[i..i + |m|];
    }
    if At(post, m, i) {
      var j := i + |pre| + |mid|;
      assert text[j..j + |m|] == post[i..i + |m|];
    }
  }

  // ---------------------------------------------------------- well-formed texts

  /** No marker at all, or one BEGIN followed by one END. */
  ghost predicate WellFormed(text: string) {
    || (Absent(text, BEGIN) && Absent(text, END))
    || exists s, e :: 0 <= s < e && Only(text, BEGIN, s) && Only(text, END, e)
  }

  /** Everything before the block, and everything after it. */
  ghost predicate HasBlock(text: string, pre: string, n: Network, post: string) {
    && text == pre + ManagedBlock(n) + post
    && Only(text, BEGIN, |pre|)
    && Only(text, END, |pre| + |BEGIN| + |Body(n)|)
  }

  lemma CleanAround(pre: string, n: Network, post: string)
    requires Absent(pre, BEGIN) && Absent(pre, END) && Absent(post, BEGIN) && Absent(post, END)
    ensures HasBlock(pre + ManagedBlock(n) + post, pre, n, post)
  {
    var text := pre + ManagedBlock(n) + post;
    BlockMarkers(pre, n, post);
    forall i | At(text, BEGIN, i) ensures i == |pre| {
      AroundBlock(pre, n, post, BEGIN, i);
    }
    forall i | At(text, END, i) ensures i == |pre| + |BEGIN| + |Body(n)| {
      AroundBlock(pre, n, post, END, i);
    }
  }

  lemma UpdateOfPair(x: string, n: Network, s: int, e: int)
    requires Only(x, BEGIN, s) && Only(x, END, e)
    ensures Update(x, n) == Ok(x[..s] + ManagedBlock(n) + x[e + |END|..])
  {
  }

  lemma UpdateOfUnmarked(x: string, n: Network)
    requires Absent(x, BEGIN) && Absent(x, END)
    ensures Update(x, n) == Ok(RStrip(x) + "\n\n" + ManagedBlock(n) + "\n")
  {
  }

  /** Cutting a text next to a marker leaves no marker it did not have. */
  lemma CutsAreClean(x: string, s: int, e: int)
    requires Only(x, BEGIN, s) && Only(x, END, e) && s < e
    ensures Absent(x[..s], BEGIN) && Absent(x[..s], END)
    ensures Absent(x[e + |END|..], BEGIN) && Absent(x[e + |END|..], END)
  {
    var pre, post := x[..s], x[e + |END|..];
    forall i ensures !At(pre, BEGIN, i) && !At(pre, END, i) {
      InPrefix(x, s, BEGIN, i);
      InPrefix(x, s, END, i);
    }
    forall i ensures !At(post, BEGIN, i) && !At(post, END, i) {
      InSuffix(x, e + |END|, BEGIN, i);
      InSuffix(x, e + |END|, END, i);
    }
  }

  lemma NewlinesAddNoMarker(r: string, m: string, i: int)
    requires IsMarker(m) && At(r + "\n\n", m, i)
    ensures At(r, m, i)
  {
    var text := r + "\n\n";
    HashOnlyAtStart(text, m, i);
    assert text[|r|] == '\n' && text[|r| + 1] == '\n';
    assert text[..|r|] == r;
    InPrefix(text, |r|, m, i);
  }

  lemma StrippedIsClean(x: string)
    requires Absent(x, BEGIN) && Absent(x, END)
    ensures Absent(RStrip(x) + "\n\n", BEGIN) && Absent(RStrip(x) + "\n\n", END)
    ensures Absent("\n", BEGIN) && Absent("\n", END)
  {
    var r := RStrip(x);
    assert r == x[..|r|];
    forall i ensures !At(r + "\n\n", BEGIN, i) && !At(r + "\n\n", END, i) {
      InPrefix(x, |r|, BEGIN, i);
      InPrefix(x, |r|, END, i);
      if At(r + "\n\n", BEGIN, i) { NewlinesAddNoMarker(r, BEGIN, i); }
      if At(r + "\n\n", END, i) { NewlinesAddNoMarker(r, END, i); }
    }
    MarkerShape(BEGIN);
    MarkerShape(END);
  }

  // -------------------------------------------------------------------- theorems

  /** Text with one ordered pair: the block is replaced in place, everything else
      is kept byte for byte, and no marker arises. */
  lemma ReplacesInPlace(x: string, n: Network, s: int, e: int)
    requires Only(x, BEGIN, s) && Only(x, END, e) && s < e
    ensures Update(x, n).Ok? && HasBlock(Update(x, n).value, x[..s], n, x[e + |END|..])
  {
    UpdateOfPair(x, n, s, e);
    CutsAreClean(x, s, e);
    CleanAround(x[..s], n, x[e + |END|..]);
  }

  /** Unmarked text: the block is appended; only trailing space is touched. */
  lemma {:induction false} AppendsBlock(x: string, n: Network)
    requires Absent(x, BEGIN) && Absent(x, END)
    ensures Update(x, n).Ok? && HasBlock(Update(x, n).value, RStrip(x) + "\n\n", n, "\n")
  {
    UpdateOfUnmarked(x, n);
    StrippedIsClean(x);
    CleanAround(RStrip(x) + "\n\n", n, "\n");
    assert RStrip(x) + "\n\n" + ManagedBlock(n) + "\n" == (RStrip(x) + "\n\n") + ManagedBlock(n) + "\n";
  }

  lemma BlankEndsNoMarker(x: string, c: char, m: string)
    requires IsMarker(m) && Absent(x, m) && c != 'I'
    ensures Absent(x + [c], m)
  {
    assert m[|m| - 1] == 'I';
    forall i ensures !At(x + [c], m, i) {
      var y := x + [c];
      InPrefix(y, |x|, m, i);
      assert y[..|x|] == x;
      assert 0 <= i && i + |m| == |y| ==> y[i..i + |m|][|m| - 1] == y[|x|];
    }
  }

  /** Blanks at the end of an unmarked text change nothing, and a text that ends in a
      visible ASCII character is kept whole. */
  lemma TrailingBlanksDoNotMatter(x: string, c: char, n: Network)
    requires Absent(x, BEGIN) && Absent(x, END)
    ensures c == ' ' || '\t' <= c <= '\r' ==> Update(x + [c], n) == Update(x, n)
    ensures x != [] && '!' <= x[|x| - 1] <= '~' ==> Update(x, n) == Ok(x + "\n\n" + ManagedBlock(n) + "\n")
  {
    hide ManagedBlock, Update;
    UpdateOfUnmarked(x, n);
    if c == ' ' || '\t' <= c <= '\r' {
      BlankEndsNoMarker(x, c, BEGIN);
      BlankEndsNoMarker(x, c, END);
      UpdateOfUnmarked(x + [c], n);
      assert (x + [c])[..|x|] == x;
    }
  }

  lemma BlockIsWellFormed(x: string, pre: string, n: Network, post: string)
    requires HasBlock(x, pre, n, post)
    ensures WellFormed(x)
  {
    MarkerShape(BEGIN);
  }

  lemma UpdateHasBlock(x: string, n: Network) returns (pre: string, post: string)
    requires WellFormed(x)
    ensures Update(x, n).Ok? && HasBlock(Update(x, n).value, pre, n, post)
    ensures forall other :: Update(x, other) == Ok(pre + ManagedBlock(other) + post)
  {
    if Absent(x, BEGIN) && Absent(x, END) {
      AppendsBlock(x, n);
      pre, post := RStrip(x) + "\n\n", "\n";
      forall other ensures Update(x, other) == Ok(pre + ManagedBlock(other) + post) {
        UpdateOfUnmarked(x, other);
      }
    } else {
      var s, e :| 0 <= s < e && Only(x, BEGIN, s) && Only(x, END, e);
      ReplacesInPlace(x, n, s, e);
      pre, post := x[..s], x[e + |END|..];
      forall other ensures Update(x, other) == Ok(pre + ManagedBlock(other) + post) {
        UpdateOfPair(x, other, s, e);
      }
    }
  }

  lemma Rewrites(x: string, pre: string, a: Network, b: Network, post: string)
    requires HasBlock(x, pre, a, post)
    ensures Update(x, b) == Ok(pre + ManagedBlock(b) + post)
  {
    var s, e := |pre|, |pre| + |BEGIN| + |Body(a)|;
    UpdateOfPair(x, b, s, e);
    Cuts(pre, ManagedBlock(a), post);
    assert e + |END| == |pre| + |ManagedBlock(a)|;
  }

  lemma Cuts(pre: string, mid: string, post: string)
    ensures (pre + mid + post)[..|pre|] == pre
    ensures (pre + mid + post)[|pre| + |mid|..] == post
  {
  }

  /** The last write wins, whatever came before: updating twice is updating once. */
  lemma LastUpdateWins(x: string, a: Network, b: Network)
    requires WellFormed(x)
    ensures Update(x, a).Ok? && WellFormed(Update(x, a).value)
    ensures Update(Update(x, a).value, b) == Update(x, b)
  {
    var pre, post := UpdateHasBlock(x, a);
    BlockIsWellFormed(Update(x, a).value, pre, a, post);
    Rewrites(Update(x, a).value, pre, a, b, post);
  }

  lemma UpdateIsIdempotent(x: string, n: Network)
    requires WellFormed(x)
    ensures Update(Update(x, n).value, n) == Update(x, n)
  {
    LastUpdateWins(x, n, n);
  }

  function UpdateAll(x: string, ns: seq<Network>): Result<string, ConfigError> {
    if ns == [] then Ok(x) else
      var before := UpdateAll(x, ns[..|ns| - 1]);
      if before.Err? then before else Update(before.value, ns[|ns| - 1])
  }

  /** Any number of updates of a well-formed file succeeds and leaves what the last
      one alone would have left. */
  lemma {:induction false} OnlyLastUpdateMatters(x: string, ns: seq<Network>)
    requires WellFormed(x)
    ensures UpdateAll(x, ns).Ok? && WellFormed(UpdateAll(x, ns).value)
    ensures ns != [] ==> UpdateAll(x, ns) == Update(x, ns[|ns| - 1])
  {
    if ns != [] {
      var before, last := ns[..|ns| - 1], ns[|ns| - 1];
      OnlyLastUpdateMatters(x, before);
      LastUpdateWins(UpdateAll(x, before).value, last, last);
      if before != [] {
        LastUpdateWins(x, before[|before| - 1], last);
      }
    }
  }

  /** END before BEGIN is not refused, and then the update spoils the file: a text
      that is accepted comes out well-formed exactly when it went in well-formed. */
  lemma AcceptedStaysWellFormedIff(x: string, n: Network)
    requires Update(x, n).Ok?
    ensures WellFormed(Update(x, n).value) <==> Find(x, BEGIN, 0) <= Find(x, END, 0)
    ensures WellFormed(x) <==> Find(x, BEGIN, 0) <= Find(x, END, 0)
  {
    var s, e := Find(x, BEGIN, 0), Find(x, END, 0);
    if s == -1 {
      LastUpdateWins(x, n, n);
    } else {
      assert Only(x, BEGIN, s) && Only(x, END, e);
      if s < e {
        LastUpdateWins(x, n, n);
      } else {
        Spoiled(x, n, s, e);
      }
    }
  }

  lemma EndsBeforeBegin(x: string, s: int, e: int)
    requires At(x, BEGIN, s) && At(x, END, e) && e <= s
    ensures e + |END| <= s
  {
    HashOnlyAtStart(x, BEGIN, s);
    HashOnlyAtStart(x, END, e);
  }

  lemma TwoEndsAreRefused(u: string, b: int, e: int, e2: int, n: Network)
    requires At(u, BEGIN, b) && At(u, END, e) && At(u, END, e2) && e < e2
    ensures !WellFormed(u) && Update(u, n) == Err(MultipleBlocks)
  {
  }

  /** What the update makes of END before BEGIN: a text every later update refuses. */
  lemma Spoiled(x: string, n: Network, s: int, e: int)
    requires Only(x, BEGIN, s) && Only(x, END, e) && e <= s
    ensures e < s && Update(x, n).Ok?
    ensures !WellFormed(Update(x, n).value)
    ensures forall other :: Update(Update(x, n).value, other) == Err(MultipleBlocks)
  {
    hide Update, WellFormed, ManagedBlock;
    UpdateOfPair(x, n, s, e);
    EndsBeforeBegin(x, s, e);
    MarkerShape(END);
    var pre, post := x[..s], x[e + |END|..];
    InPrefix(x, s, END, e);
    OutsideSurvives(pre, ManagedBlock(n), post, END, e);
    BlockMarkers(pre, n, post);
    var u := Update(x, n).value;
    TwoEndsAreRefused(u, |pre|, e, |pre| + |BEGIN| + |Body(n)|, n);
    forall other ensures Update(u, other) == Err(MultipleBlocks) {
      TwoEndsAreRefused(u, |pre|, e, |pre| + |BEGIN| + |Body(n)|, other);
    }
  }

  lemma JoinedHashes(a: string, sep: string, c: string)
    requires a != [] && c != [] && a[0] == c[0] == '#'
    requires forall k :: 0 < k < |a| ==> a[k] != '#'
    requires forall k :: 0 <= k < |sep| ==> sep[k] != '#'
    requires forall k :: 0 < k < |c| ==> c[k] != '#'
    ensures forall k :: 0 <= k < |a + sep + c| && (a + sep + c)[k] == '#' ==> k == 0 || k == |a| + |sep|
    ensures At(a + sep + c, a, 0) && At(a + sep + c, c, |a| + |sep|)
  {
    assert (a + sep + c)[|a| + |sep|..] == c;
    assert (a + sep + c)[..|a|] == a;
  }

  /** Such a text exists: two lines, the END marker and then the BEGIN marker. */
  lemma EndBeforeBeginExample(n: Network, other: Network)
    ensures var x := END + "\n" + BEGIN;
            Update(x, n).Ok? && Update(Update(x, n).value, other) == Err(MultipleBlocks)
  {
    var x, s := END + "\n" + BEGIN, |END| + 1;
    MarkerShape(BEGIN);
    MarkerShape(END);
    JoinedHashes(END, "\n", BEGIN);
    forall i | At(x, BEGIN, i) ensures i == s {
      HashOnlyAtStart(x, BEGIN, i);
      assert x[2] == END[2];
    }
    forall i | At(x, END, i) ensures i == 0 {
      HashOnlyAtStart(x, END, i);
      assert x[s + 2] == BEGIN[2];
    }
    Spoiled(x, n, s, 0);
  }
}
