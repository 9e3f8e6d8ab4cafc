/** The text that packer signatures are written in, line by line and word by word. */
module PackerText {
  import opened Prelude

  newtype byte = x: int | 0 <= x < 256

  type Pattern = seq<Option<byte>>

  // ----- Characters

  /** The characters of Unicode's White_Space property. */
  predicate IsSpace(c: char) {
    var n := c as int;
    || 0x9 <= n <= 0xD || n == 0x20 || n == 0x85 || n == 0xA0 || n == 0x1680
    || 0x2000 <= n <= 0x200A || n == 0x2028 || n == 0x2029 || n == 0x202F || n == 0x205F || n == 0x3000
  }

  function LowerChar(c: char): char { if 'A' <= c <= 'Z' then (c as int + 32) as char else c }

  function Lower(s: string): string { seq(|s|, i requires 0 <= i < |s| => LowerChar(s[i])) }

  function TrimStart(s: string): string { if s != "" && IsSpace(s[0]) then TrimStart(s[1..]) else s }

  function TrimEnd(s: string): string { if s != "" && IsSpace(s[|s| - 1]) then TrimEnd(s[..|s| - 1]) else s }

  function Trim(s: string): string { TrimEnd(TrimStart(s)) }

  function IndexOf(s: string, c: char): (r: Option<nat>)
    ensures r.Some? ==> r.value < |s| && s[r.value] == c && forall i :: 0 <= i < r.value ==> s[i] != c
    ensures r.None? ==> c !in s
  {
    if s == "" then None
    else if s[0] == c then Some(0)
    else match IndexOf(s[1..], c) case None => None case Some(k) => Some(k + 1)
  }

  // ----- Patterns

  function DigitOf(c: char): Option<nat> {
    if '0' <= c <= '9' then Some(c as int - '0' as int)
    else if 'a' <= c <= 'f' then Some(c as int - 'a' as int + 10)
    else if 'A' <= c <= 'F' then Some(c as int - 'A' as int + 10)
    else None
  }

  function HexValue(s: string): Option<nat> {
    if s == "" then Some(0)
    else
      match (HexValue(s[..|s| - 1]), DigitOf(s[|s| - 1]))
      case (Some(n), Some(d)) => Some(16 * n + d)
      case _ => None
  }

  /** `u8::from_str_radix(s, 16).ok()`: an optional plus sign, then digits, with a value that fits. */
  function ParseByte(s: string): Option<byte> {
    var digits := if s != "" && s[0] == '+' then s[1..] else s;
    match HexValue(digits)
    case Some(n) => if digits != "" && n < 256 then Some(n as byte) else None
    case None => None
  }

  /** A token that is no byte at all counts as a wildcard, like `??`. */
  function ParseToken(s: string): Option<byte> { if s == "??" then None else ParseByte(s) }

  /** The words of a text: how many characters the first one has, and then the others. */
  function WordLength(s: string): (n: nat)
    ensures n <= |s| && (forall i :: 0 <= i < n ==> !IsSpace(s[i])) && (n < |s| ==> IsSpace(s[n]))
  {
    if s == "" || IsSpace(s[0]) then 0 else 1 + WordLength(s[1..])
  }

  function Words(s: string): (r: seq<string>)
    ensures forall w :: w in r ==> w != "" && forall c :: c in w ==> !IsSpace(c)
    decreases |s|
  {
    if s == "" then []
    else if IsSpace(s[0]) then Words(s[1..])
    else [s[..WordLength(s)]] + Words(s[WordLength(s)..])
  }

  function ParseTokens(words: seq<string>): (p: Pattern)
    ensures |p| == |words| && forall i :: 0 <= i < |p| ==> p[i] == ParseToken(words[i])
  {
    if words == [] then [] else [ParseToken(words[0])] + ParseTokens(words[1..])
  }

  function ParsePattern(s: string): Pattern { ParseTokens(Words(s)) }

  // ----- Lines

  datatype Line = Blank | Header(name: string) | Signature(pattern: Pattern) | EpOnly(value: bool) | Unknown

  function Classify(line: string): Line { ClassifyText(Trim(line)) }

  function ClassifyText(text: string): Line {
    if text == "" || text[0] == ';' then Blank
    else if text[0] == '[' && text[|text| - 1] == ']' then Header(text[1..|text| - 1])
    else
      match IndexOf(text, '=')
      case None => Unknown
      case Some(k) => ClassifyEntry(Lower(Trim(text[..k])), Trim(text[k + 1..]))
  }

  function ClassifyEntry(key: string, value: string): Line {
    if key == "signature" then Signature(ParsePattern(value))
    else if key == "ep_only" then EpOnly(Lower(value) == "true")
    else Unknown
  }

  // ----- How a line may be written

  predicate Spaces(s: string) { forall i :: 0 <= i < |s| ==> IsSpace(s[i]) }

  /** No blanks at either end. */
  predicate Tight(s: string) { s == "" || (!IsSpace(s[0]) && !IsSpace(s[|s| - 1])) }

  /** The same but for the case of ASCII letters; `key` has no capitals. */
  predicate SameButCase(s: string, key: string) {
    |s| == |key| && forall i :: 0 <= i < |s| ==>
      s[i] == key[i] || ('a' <= key[i] <= 'z' && s[i] as int == key[i] as int - 32)
  }

  /** Blanks before and behind the two sides of a line. */
  datatype Margins = Margins(a: string, b: string, c: string, d: string)

  predicate IsEntry(line: string, m: Margins, k: string, v: string) {
    && Spaces(m.a) && Spaces(m.b) && Spaces(m.c) && Spaces(m.d) && Tight(v)
    && line == m.a + (k + m.b + "=" + (m.c + v)) + m.d
  }

  ghost predicate IsKeyLine(line: string, key: string, v: string) {
    exists m, k :: SameButCase(k, key) && IsEntry(line, m, k, v)
  }

  predicate IsHeaderLine(line: string, a: string, name: string, d: string) {
    Spaces(a) && Spaces(d) && line == a + "[" + name + "]" + d
  }

  predicate IsComment(line: string, a: string, remark: string) { Spaces(a) && line == a + ";" + remark }

  ghost predicate IsPassedOver(line: string) { Spaces(line) || exists a, remark :: IsComment(line, a, remark) }

  // ----- A line is read by how it is written

  lemma {:induction false} TrimStartSkips(a: string, s: string)
    requires Spaces(a)
    ensures TrimStart(a + s) == TrimStart(s)
  {
    hide IsSpace;
    if a == "" {
      assert a + s == s;
    } else {
      TrimStartSkips(a[1..], s);
      assert (a + s)[0] == a[0] && (a + s)[1..] == a[1..] + s;
    }
  }

  lemma {:induction false} TrimEndSkips(s: string, d: string)
    requires Spaces(d)
    ensures TrimEnd(s + d) == TrimEnd(s)
  {
    hide IsSpace;
    if d == "" {
      assert s + d == s;
    } else {
      var n := |d| - 1;
      TrimEndSkips(s, d[..n]);
      assert (s + d)[|s + d| - 1] == d[n] && (s + d)[..|s + d| - 1] == s + d[..n];
    }
  }

  lemma TrimPadded(a: string, s: string, d: string)
    requires Spaces(a) && Tight(s) && Spaces(d)
    ensures Trim(a + s + d) == s
  {
    hide IsSpace;
    assert a + s + d == a + (s + d);
    TrimStartSkips(a, s + d);
    if s == "" {
      assert s + d == d + "";
      TrimStartSkips(d, "");
    } else {
      assert (s + d)[0] == s[0];
      TrimEndSkips(s, d);
    }
  }

  lemma {:induction false} StartTrimmed(s: string) returns (a: string)
    ensures s == a + TrimStart(s) && Spaces(a) && (TrimStart(s) == "" || !IsSpace(TrimStart(s)[0]))
  {
    hide IsSpace;
    if s != "" && IsSpace(s[0]) {
      var b := StartTrimmed(s[1..]);
      a := [s[0]] + b;
      assert s == [s[0]] + s[1..];
    } else {
      a := "";
    }
  }

  lemma {:induction false} EndTrimmed(s: string) returns (d: string)
    requires s == "" || !IsSpace(s[0])
    ensures s == TrimEnd(s) + d && Tight(TrimEnd(s)) && Spaces(d)
  {
    hide IsSpace;
    if s != "" && IsSpace(s[|s| - 1]) {
      var n := |s| - 1;
      var b := EndTrimmed(s[..n]);
      d := b + [s[n]];
      assert s == s[..n] + [s[n]];
    } else {
      d := "";
    }
  }

  lemma Trimmed(s: string) returns (a: string, d: string)
    ensures s == a + Trim(s) + d && Spaces(a) && Tight(Trim(s)) && Spaces(d)
  {
    a := StartTrimmed(s);
    d := EndTrimmed(TrimStart(s));
    hide IsSpace, TrimStart, TrimEnd, Spaces, Tight;
    assert a + (Trim(s) + d) == a + Trim(s) + d;
  }

  /** No blank is a printing character of ASCII. */
  lemma NoSpace(c: char)
    requires '!' <= c <= '~'
    ensures !IsSpace(c)
  {
  }

  lemma LowerIff(s: string, key: string)
    requires forall i :: 0 <= i < |key| ==> !('A' <= key[i] <= 'Z')
    ensures Lower(s) == key <==> SameButCase(s, key)
  {
    if SameButCase(s, key) {
      assert forall i :: 0 <= i < |s| ==> LowerChar(s[i]) == key[i];
    }
    forall i | Lower(s) == key && 0 <= i < |s| ensures LowerChar(s[i]) == key[i] {
      assert Lower(s)[i] == LowerChar(s[i]);
    }
  }

  lemma IndexOfAt(s: string, c: char, k: nat)
    requires k < |s| && s[k] == c && forall i :: 0 <= i < k ==> s[i] != c
    ensures IndexOf(s, c) == Some(k)
  {
  }

  predicate IsKey(key: string) { key == "signature" || key == "ep_only" }

  /** What is left and right of the first `=` of a text, if it has one. */
  ghost predicate Splits(text: string, key: string, v: string) {
    match IndexOf(text, '=')
    case None => false
    case Some(k) => Lower(Trim(text[..k])) == key && Trim(text[k + 1..]) == v
  }

  lemma KeyIsTight(k: string, key: string)
    requires IsKey(key) && SameButCase(k, key)
    ensures Tight(k) && k != "" && k[0] !in {'[', ';'} && '=' !in k
  {
    assert forall i :: 0 <= i < |k| ==> 'A' <= k[i] <= 'z';
    NoSpace(k[0]);
    NoSpace(k[|k| - 1]);
  }

  lemma FirstEquals(head: string, value: string)
    requires '=' !in head
    ensures var text := head + "=" + value;
            && IndexOf(text, '=') == Some(|head|) && text[..|head|] == head && text[|head| + 1..] == value
            && text[0] == (if head == "" then '=' else head[0])
  {
    var text := head + "=" + value;
    assert forall i :: 0 <= i < |head| ==> text[i] == head[i];
    IndexOfAt(text, '=', |head|);
    hide IndexOf;
  }

  lemma AtFirstEquals(text: string)
    requires IndexOf(text, '=').Some?
    ensures var n := IndexOf(text, '=').value; text == text[..n] + "=" + text[n + 1..]
  {
  }

  /** The text of an entry, and its value with the blanks before it. */
  lemma EntryText(line: string, m: Margins, k: string, v: string) returns (value: string)
    requires IsEntry(line, m, k, v) && Tight(k) && k != ""
    ensures Trim(line) == k + m.b + "=" + value && Trim(value) == v
  {
    hide IsSpace, Trim;
    NoSpace('=');
    value := if v == "" then "" else m.c + v;
    var text, tail := k + m.b + "=" + value, if v == "" then m.c + m.d else m.d;
    assert Trim(value) == v by {
      TrimPadded(if v == "" then "" else m.c, v, "");
      assert value + "" == value && "" + v == v;
    }
    assert line == m.a + text + tail by {
      if v == "" {
        assert m.c + v == m.c;
        NoValue(m.a, k + m.b, m.c, m.d);
      }
    }
    assert Tight(text) by {
      assert text[0] == k[0];
      assert text[|text| - 1] == if v == "" then '=' else v[|v| - 1];
    }
    TrimPadded(m.a, text, tail);
  }

  lemma NoValue(a: string, head: string, c: string, d: string)
    ensures a + (head + "=" + c) + d == a + (head + "=" + "") + (c + d)
  {
  }

  lemma EntrySplits(line: string, key: string, m: Margins, k: string, v: string)
    requires IsKey(key) && SameButCase(k, key) && IsEntry(line, m, k, v)
    ensures var text := Trim(line); text != "" && text[0] !in {'[', ';'} && Splits(text, key, v)
  {
    KeyIsTight(k, key);
    LowerIff(k, key);
    NoSpace('=');
    hide IsSpace, Trim, Lower, IndexOf, SameButCase;
    var value := EntryText(line, m, k, v);
    assert '=' !in m.b;
    FirstEquals(k + m.b, value);
    assert "" + k + m.b == k + m.b;
    TrimPadded("", k, m.b);
  }

  lemma SplitsIsEntry(line: string, key: string, v: string)
    requires IsKey(key) && Splits(Trim(line), key, v)
    ensures IsKeyLine(line, key, v) && Trim(line)[0] !in {'[', ';'}
  {
    var text := Trim(line);
    var n := IndexOf(text, '=').value;
    var k := Trim(text[..n]);
    LowerIff(k, key);
    KeyIsTight(k, key);
    AtFirstEquals(text);
    hide IsSpace, Trim, Lower, IndexOf, SameButCase, IsKey, IsEntry, Spaces, Tight;
    var m := EntryMargins(line, text[..n], text[n + 1..]);
    assert text[0] == (if n == 0 then '=' else text[..n][0]);
    var a', b := Trimmed(text[..n]);
    KeyInFront(a', k, b);
  }

  /** A line whose text has two sides, each with its blanks. */
  lemma EntryMargins(line: string, left: string, right: string) returns (m: Margins)
    requires Trim(line) == left + "=" + right
    ensures IsEntry(line, m, Trim(left), Trim(right))
  {
    hide IsSpace, Trim;
    var a, d := Trimmed(line);
    var a', b := Trimmed(left);
    var c, d' := Trimmed(right);
    Regroup(a, a', Trim(left), b, c, Trim(right), d', d);
    assert Spaces(a + a') && Spaces(d' + d);
    m := Margins(a + a', b, c, d' + d);
  }

  lemma KeyInFront(a: string, k: string, b: string)
    requires Spaces(a) && k != "" && k[0] !in {'[', ';'}
    ensures (a + k + b)[0] !in {'[', ';'}
  {
    NoSpace('[');
    NoSpace(';');
    hide IsSpace;
    assert (a + k + b)[0] == if a == "" then k[0] else a[0];
  }

  lemma Regroup(a: string, a': string, k: string, b: string, c: string, v: string, d': string, d: string)
    ensures a + (a' + k + b + "=" + (c + v + d')) + d == (a + a') + (k + b + "=" + (c + v)) + (d' + d)
  {
  }

  /** A line is an entry with a key exactly if the key, in any case, and the value stand on the two
      sides of its first `=`, with any blanks around them. */
  lemma KeyLineIff(line: string, key: string, v: string)
    requires IsKey(key)
    ensures IsKeyLine(line, key, v) <==> Splits(Trim(line), key, v)
    ensures IsKeyLine(line, key, v) ==> Trim(line) != "" && Trim(line)[0] !in {'[', ';'}
  {
    if IsKeyLine(line, key, v) {
      var m, k :| SameButCase(k, key) && IsEntry(line, m, k, v);
      EntrySplits(line, key, m, k, v);
    }
    if Splits(Trim(line), key, v) {
      SplitsIsEntry(line, key, v);
    }
  }

  /** A line gives a pattern exactly if it is written `signature = ..`, in any case and with any blanks. */
  lemma SignatureIff(line: string, p: Pattern)
    ensures Classify(line) == Signature(p) <==>
            exists v :: IsKeyLine(line, "signature", v) && ParsePattern(v) == p
  {
    hide Trim, Lower, ParsePattern, IsKeyLine;
    forall v | IsKeyLine(line, "signature", v) ensures Classify(line) == Signature(ParsePattern(v)) {
      KeyLineIff(line, "signature", v);
    }
    if Classify(line) == Signature(p) {
      var text := Trim(line);
      var v := Trim(text[IndexOf(text, '=').value + 1..]);
      KeyLineIff(line, "signature", v);
    }
  }

  /** A line says `ep_only` exactly if it is written `ep_only = ..`, and it says yes to `true` only;
      both words stand in any case. */
  lemma EpOnlyIff(line: string, epOnly: bool)
    ensures Classify(line) == EpOnly(epOnly) <==>
            exists v :: IsKeyLine(line, "ep_only", v) && (epOnly <==> SameButCase(v, "true"))
  {
    hide Trim, Lower, ParsePattern, IsKeyLine;
    forall v | IsKeyLine(line, "ep_only", v) ensures Classify(line) == EpOnly(SameButCase(v, "true")) {
      KeyLineIff(line, "ep_only", v);
      LowerIff(v, "true");
    }
    if Classify(line) == EpOnly(epOnly) {
      var text := Trim(line);
      var v := Trim(text[IndexOf(text, '=').value + 1..]);
      KeyLineIff(line, "ep_only", v);
    }
  }

  /** A line begins a block exactly if it is a name in brackets between blanks. */
  lemma HeaderIff(line: string, name: string)
    ensures Classify(line) == Header(name) <==> exists a, d :: IsHeaderLine(line, a, name, d)
  {
    hide IsSpace, Trim, ParsePattern, Lower, IndexOf;
    NoSpace('[');
    NoSpace(']');
    forall a, d | IsHeaderLine(line, a, name, d) ensures Classify(line) == Header(name) {
      var text := "[" + name + "]";
      assert line == a + text + d && text[|text| - 1] == ']' && text[1..|text| - 1] == name;
      TrimPadded(a, text, d);
    }
    if Classify(line) == Header(name) {
      var text := Trim(line);
      var a, d := Trimmed(line);
      assert text == text[..1] + text[1..|text| - 1] + text[|text| - 1..];
      assert IsHeaderLine(line, a, name, d);
    }
  }

  /** A line is passed over exactly if it is blank or a comment. */
  lemma BlankIff(line: string)
    ensures Classify(line) == Blank <==> IsPassedOver(line)
  {
    hide IsSpace, Trim, ParsePattern, Lower, IndexOf;
    var a, d := Trimmed(line);
    var text := Trim(line);
    NoSpace(';');
    if text == "" {
      assert line == a + d;
    } else if text[0] == ';' {
      assert line == a + ";" + (text[1..] + d);
      assert IsComment(line, a, text[1..] + d);
    } else {
      assert line[|a|] == text[0] && !IsSpace(line[|a|]);
      forall b, remark ensures !IsComment(line, b, remark) {
        if IsComment(line, b, remark) {
          FirstInk(line, a, b);
        }
      }
    }
  }

  /** Two runs of blanks with something else behind them are the same. */
  lemma FirstInk(line: string, a: string, b: string)
    requires |a| < |line| && |b| < |line| && line[..|a|] == a && line[..|b|] == b && Spaces(a) && Spaces(b)
    requires !IsSpace(line[|a|]) && !IsSpace(line[|b|])
    ensures a == b
  {
    if |a| < |b| {
      SpaceAt(line, b, |a|);
    } else if |b| < |a| {
      SpaceAt(line, a, |b|);
    }
    hide IsSpace, Spaces;
  }

  lemma SpaceAt(line: string, a: string, i: nat)
    requires i < |a| <= |line| && line[..|a|] == a && Spaces(a)
    ensures IsSpace(line[i])
  {
    assert line[i] == a[i];
  }

  // ----- How a pattern may be written

  /** A word of a pattern, and the blanks before it. */
  datatype Spaced = Spaced(gap: string, word: string)

  function Joined(words: seq<Spaced>): string {
    if words == [] then "" else words[0].gap + words[0].word + Joined(words[1..])
  }

  /** The words stand apart. */
  predicate Apart(words: seq<Spaced>) {
    forall i :: 0 <= i < |words| ==> IsApart(words[i]) && (i > 0 ==> words[i].gap != "")
  }

  /** Blanks, and then a word without any. */
  predicate IsApart(w: Spaced) {
    Spaces(w.gap) && w.word != "" && forall j :: 0 <= j < |w.word| ==> !IsSpace(w.word[j])
  }

  predicate IsDigit(c: char, d: nat)
    requires d < 16
  {
    c == "0123456789ABCDEF"[d] || c == "0123456789abcdef"[d]
  }

  predicate IsToken(word: string, b: Option<byte>) {
    match b
    case None => word == "??"
    case Some(n) => |word| == 2 && IsDigit(word[0], n as nat / 16) && IsDigit(word[1], n as nat % 16)
  }

  lemma DigitIsRead(c: char, d: nat)
    requires d < 16 && IsDigit(c, d)
    ensures DigitOf(c) == Some(d) && c != '?' && c != '+'
  {
  }

  lemma TokenIsRead(word: string, b: Option<byte>)
    requires IsToken(word, b)
    ensures ParseToken(word) == b
  {
    if b.Some? {
      DigitIsRead(word[0], b.value as nat / 16);
      DigitIsRead(word[1], b.value as nat % 16);
      hide DigitOf, IsDigit;
      assert word[..1] == [word[0]] && word[..1][..0] == "";
      assert HexValue(word[..1]) == DigitOf(word[0]);
    }
  }

  lemma {:induction false} GapIsSkipped(gap: string, s: string)
    requires Spaces(gap)
    ensures Words(gap + s) == Words(s)
  {
    hide IsSpace;
    if gap == "" {
      assert gap + s == s;
    } else {
      GapIsSkipped(gap[1..], s);
      assert (gap + s)[0] == gap[0] && (gap + s)[1..] == gap[1..] + s;
    }
  }

  lemma {:induction false} WordIsMeasured(word: string, s: string)
    requires (forall j :: 0 <= j < |word| ==> !IsSpace(word[j])) && (s == "" || IsSpace(s[0]))
    ensures WordLength(word + s) == |word|
  {
    hide IsSpace;
    if word == "" {
      assert word + s == s;
    } else {
      WordIsMeasured(word[1..], s);
      assert (word + s)[0] == word[0] && (word + s)[1..] == word[1..] + s;
    }
  }

  lemma WordIsRead(word: string, s: string)
    requires word != "" && (forall j :: 0 <= j < |word| ==> !IsSpace(word[j])) && (s == "" || IsSpace(s[0]))
    ensures Words(word + s) == [word] + Words(s)
  {
    hide IsSpace;
    var all := word + s;
    WordIsMeasured(word, s);
    assert all[0] == word[0] && all[..|word|] == word && all[|word|..] == s;
  }

  /** The words of a text are found whatever blanks stand between, before and behind them. */
  lemma {:induction false} WordsAreRead(words: seq<Spaced>, tail: string)
    requires Apart(words) && Spaces(tail)
    ensures |Words(Joined(words) + tail)| == |words|
    ensures forall i :: 0 <= i < |words| ==> Words(Joined(words) + tail)[i] == words[i].word
  {
    hide IsSpace;
    if words == [] {
      GapIsSkipped(tail, "");
      assert Joined(words) + tail == tail + "" && Words("") == [];
    } else {
      var (first, rest) := (words[0], Joined(words[1..]) + tail);
      assert forall i :: 1 <= i < |words| ==> words[1..][i - 1] == words[i];
      WordsAreRead(words[1..], tail);
      assert Joined(words) + tail == first.gap + (first.word + rest);
      GapIsSkipped(first.gap, first.word + rest);
      assert |words| == 1 ==> rest == tail;
      assert |words| > 1 ==> rest[0] == words[1].gap[0];
      WordIsRead(first.word, rest);
    }
  }

  ghost predicate IsPattern(v: string, p: Pattern) {
    exists words, tail :: Apart(words) && Spaces(tail) && v == Joined(words) + tail && Spell(words, p)
  }

  predicate Spell(words: seq<Spaced>, p: Pattern) {
    |words| == |p| && forall i :: 0 <= i < |p| ==> IsToken(words[i].word, p[i])
  }

  /** A pattern is read back however its words stand apart, and in whatever case its digits are. */
  lemma PatternIsRead(v: string, p: Pattern)
    requires IsPattern(v, p)
    ensures ParsePattern(v) == p
  {
    var words: seq<Spaced>, tail: string :|
      Apart(words) && Spaces(tail) && v == Joined(words) + tail && Spell(words, p);
    WordsAreRead(words, tail);
    forall i | 0 <= i < |p| ensures ParseToken(words[i].word) == p[i] {
      TokenIsRead(words[i].word, p[i]);
    }
    hide ParseToken, Words, IsToken, Apart, Joined;
  }

  /** A line as it may be written for what it says. */
  ghost predicate IsLine(line: string, l: Line) {
    match l
    case Blank => IsPassedOver(line)
    case Header(name) => exists a, d :: IsHeaderLine(line, a, name, d)
    case Signature(p) => exists v :: IsKeyLine(line, "signature", v) && IsPattern(v, p)
    case EpOnly(epOnly) => exists v :: IsKeyLine(line, "ep_only", v) && (epOnly <==> SameButCase(v, "true"))
    case Unknown =>
      && !IsPassedOver(line)
      && (forall a, name, d :: !IsHeaderLine(line, a, name, d))
      && forall v :: !IsKeyLine(line, "signature", v) && !IsKeyLine(line, "ep_only", v)
  }

  /** Whatever a line may be written for is what is read. */
  lemma LineIsRead(line: string, l: Line)
    requires IsLine(line, l)
    ensures Classify(line) == l
  {
    hide Classify, IsPattern, IsPassedOver, IsKeyLine, IsHeaderLine, SameButCase;
    match l {
      case Blank => BlankIff(line);
      case Header(name) => HeaderIff(line, name);
      case Signature(p) =>
        var v :| IsKeyLine(line, "signature", v) && IsPattern(v, p);
        PatternIsRead(v, p);
        SignatureIff(line, p);
      case EpOnly(epOnly) => EpOnlyIff(line, epOnly);
      case Unknown => NothingElse(line);
    }
  }

  lemma NothingElse(line: string)
    requires IsLine(line, Unknown)
    ensures Classify(line) == Unknown
  {
    hide Classify, IsPassedOver, IsKeyLine, IsHeaderLine, SameButCase;
    match Classify(line) {
      case Blank => BlankIff(line);
      case Header(name) => HeaderIff(line, name);
      case Signature(p) => SignatureIff(line, p);
      case EpOnly(epOnly) => EpOnlyIff(line, epOnly);
      case Unknown =>
    }
  }

  // ----- Writing a pattern down and reading it back

  function HexDigit(d: nat): (c: char)
    requires d < 16
    ensures IsDigit(c, d) && !IsSpace(c)
  {
    if d < 10 then ('0' as int + d) as char else ('A' as int + d - 10) as char
  }

  function RenderByte(b: Option<byte>): (s: string)
    ensures |s| == 2 && !IsSpace(s[0]) && !IsSpace(s[1]) && IsToken(s, b)
  {
    match b
    case None => "??"
    case Some(n) => [HexDigit(n as nat / 16), HexDigit(n as nat % 16)]
  }

  /** Tokens separated by single blanks. */
  function RenderPattern(p: Pattern): (s: string)
    ensures p != [] ==> s != "" && !IsSpace(s[0]) && !IsSpace(s[|s| - 1])
  {
    if p == [] then ""
    else if |p| == 1 then RenderByte(p[0])
    else RenderByte(p[0]) + " " + RenderPattern(p[1..])
  }

  function SpacedBytes(p: Pattern, first: string): (words: seq<Spaced>)
    ensures |words| == |p|
    ensures forall i :: 0 <= i < |p| ==> words[i] == Spaced(if i == 0 then first else " ", RenderByte(p[i]))
  {
    if p == [] then [] else [Spaced(first, RenderByte(p[0]))] + SpacedBytes(p[1..], " ")
  }

  lemma {:induction false} RenderIsJoined(p: Pattern, first: string)
    requires p != []
    ensures Joined(SpacedBytes(p, first)) == first + RenderPattern(p)
  {
    hide RenderByte, IsSpace;
    var words := SpacedBytes(p, first);
    assert words[1..] == SpacedBytes(p[1..], " ");
    if |p| > 1 {
      RenderIsJoined(p[1..], " ");
    } else {
      assert Joined(words[1..]) == "";
    }
  }

  lemma RenderIsPattern(p: Pattern)
    ensures IsPattern(RenderPattern(p), p)
  {
    var words := SpacedBytes(p, "");
    if p == [] {
      assert Joined(words) == "";
    } else {
      RenderIsJoined(p, "");
    }
    BytesAreApart(p);
    hide RenderPattern, IsToken, Joined, Apart, Spell;
    assert Apart(words) && Spaces("") && RenderPattern(p) == Joined(words) + "" && Spell(words, p);
  }

  lemma BytesAreApart(p: Pattern)
    ensures Apart(SpacedBytes(p, "")) && Spell(SpacedBytes(p, ""), p)
  {
    hide IsSpace, RenderByte, IsToken, SpacedBytes;
    forall i | 0 <= i < |p| ensures IsApart(SpacedBytes(p, "")[i]) {
      ByteIsApart(p[i], "");
      ByteIsApart(p[i], " ");
    }
    hide IsApart;
  }

  lemma ByteIsApart(b: Option<byte>, gap: string)
    requires gap == "" || gap == " "
    ensures IsApart(Spaced(gap, RenderByte(b)))
  {
    assert Spaces(gap);
    hide RenderByte;
  }

  /** Every pattern of bytes and wildcards can be written, and is read back as it was. */
  lemma ParseRender(p: Pattern)
    ensures ParsePattern(RenderPattern(p)) == p
  {
    RenderIsPattern(p);
    PatternIsRead(RenderPattern(p), p);
  }
}
