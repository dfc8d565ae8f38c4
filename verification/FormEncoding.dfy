/**
 `application/x-www-form-urlencoded` text as Go's net/url writes and reads it: percent triplets and the
 unreserved characters of RFC 3986, sections 2.1 and 2.3, with space written as `+`, and keys sorted bytewise.
 */
module FormEncoding {
  import opened Options
  import opened Config

  // --- Escaping ---

  predicate IsUnreserved(b: Byte) {
    'a' <= b <= 'z' || 'A' <= b <= 'Z' || '0' <= b <= '9' || b in {'-', '_', '.', '~'}
  }

  predicate IsUpperHex(b: Byte) {
    '0' <= b <= '9' || 'A' <= b <= 'F'
  }

  function HexDigit(n: int): (b: Byte)
    requires 0 <= n < 16
    ensures IsUpperHex(b)
  {
    if n < 10 then ('0' as int + n) as char else ('A' as int + n - 10) as char
  }

  /** Accepts both cases, as a reader must. */
  function HexValue(b: Byte): Option<int> {
    if '0' <= b <= '9' then Some(b as int - '0' as int)
    else if 'A' <= b <= 'F' then Some(b as int - 'A' as int + 10)
    else if 'a' <= b <= 'f' then Some(b as int - 'a' as int + 10)
    else None
  }

  lemma HexRoundTrip(n: int)
    requires 0 <= n < 16
    ensures HexValue(HexDigit(n)) == Some(n)
  {
  }

  function EscapeByte(b: Byte): Text {
    if IsUnreserved(b) then [b]
    else if b == ' ' then ['+']
    else ['%', HexDigit(b as int / 16), HexDigit(b as int % 16)]
  }

  /** Letters, digits and `-_.~` stand for themselves, a space is `+`, and any other byte is its upper-case triplet. */
  lemma EscapedByte(b: Byte)
    ensures EscapeByte(b) == [b] <==>
      'a' <= b <= 'z' || 'A' <= b <= 'Z' || '0' <= b <= '9' || b == '-' || b == '_' || b == '.' || b == '~'
    ensures EscapeByte(b) == "+" <==> b == ' '
    ensures EscapeByte(b) != [b] && b != ' ' ==>
      var text := EscapeByte(b);
      && |text| == 3 && text[0] == '%'
      && text[1] in "0123456789ABCDEF" && text[2] in "0123456789ABCDEF"
      && HexValue(text[1]).Some? && HexValue(text[2]).Some?
      && b as int == 16 * HexValue(text[1]).value + HexValue(text[2]).value
  {
    if EscapeByte(b) != [b] && b != ' ' {
      HexRoundTrip(b as int / 16);
      HexRoundTrip(b as int % 16);
      UpperHexDigits(HexDigit(b as int / 16));
      UpperHexDigits(HexDigit(b as int % 16));
    }
  }

  lemma UpperHexDigits(b: Byte)
    requires IsUpperHex(b)
    ensures b in "0123456789ABCDEF"
  {
    var digits := "0123456789ABCDEF";
    if b <= '9' {
      assert digits[b as int - '0' as int] == b;
    } else {
      assert digits[b as int - 'A' as int + 10] == b;
    }
  }

  /** url.QueryEscape */
  function Escape(text: Text): Text {
    if text == [] then [] else EscapeByte(text[0]) + Escape(text[1..])
  }

  /** url.QueryUnescape; None for a broken percent triplet. */
  function Unescape(text: Text): Option<Text>
    decreases |text|
  {
    if text == [] then Some([])
    else if text[0] == '%' then
      if |text| < 3 || HexValue(text[1]).None? || HexValue(text[2]).None? then None
      else match Unescape(text[3..])
        case None => None
        case Some(rest) =>
          var b: Byte := (16 * HexValue(text[1]).value + HexValue(text[2]).value) as char;
          Some([b] + rest)
    else match Unescape(text[1..])
      case None => None
      case Some(rest) => Some([if text[0] == '+' then ' ' else text[0]] + rest)
  }

  /** Text made of unreserved characters, `+` and upper-case percent triplets only. */
  predicate IsEscaped(text: Text)
    decreases |text|
  {
    text == [] ||
    if text[0] == '%' then |text| >= 3 && IsUpperHex(text[1]) && IsUpperHex(text[2]) && IsEscaped(text[3..])
    else (IsUnreserved(text[0]) || text[0] == '+') && IsEscaped(text[1..])
  }

  lemma UnescapeByte(b: Byte, rest: Text)
    requires Unescape(rest).Some? && IsEscaped(rest)
    ensures Unescape(EscapeByte(b) + rest) == Some([b] + Unescape(rest).value)
    ensures IsEscaped(EscapeByte(b) + rest)
  {
    var text := EscapeByte(b) + rest;
    if IsUnreserved(b) || b == ' ' {
      assert text[1..] == rest;
    } else {
      HexRoundTrip(b as int / 16);
      HexRoundTrip(b as int % 16);
      assert text[1] == HexDigit(b as int / 16) && text[2] == HexDigit(b as int % 16) && text[3..] == rest;
      assert (16 * (b as int / 16) + b as int % 16) as char == b;
    }
  }

  /** Escaping uses only the RFC's characters, and unescaping undoes it, for every byte string. */
  lemma {:induction false} EscapeRoundTrip(text: Text)
    ensures Unescape(Escape(text)) == Some(text)
    ensures IsEscaped(Escape(text))
  {
    if text != [] {
      EscapeRoundTrip(text[1..]);
      UnescapeByte(text[0], Escape(text[1..]));
      assert text == [text[0]] + text[1..];
    }
  }

  lemma {:induction false} EscapedHasNoSeparators(text: Text)
    requires IsEscaped(text)
    ensures '&' !in text && '=' !in text && ';' !in text
    decreases |text|
  {
    if text != [] {
      if text[0] == '%' {
        EscapedHasNoSeparators(text[3..]);
        assert text == [text[0], text[1], text[2]] + text[3..];
      } else {
        EscapedHasNoSeparators(text[1..]);
        assert text == [text[0]] + text[1..];
      }
    }
  }

  // --- Cutting ---

  datatype Cut = Cut(before: Text, after: Text, found: bool)

  /** strings.Cut: at the first occurrence of a non-empty separator. */
  function CutAt(text: Text, sep: Text): Cut
    requires sep != []
  {
    if text == [] then Cut([], [], false)
    else if sep <= text then Cut([], text[|sep|..], true)
    else
      var rest := CutAt(text[1..], sep);
      Cut([text[0]] + rest.before, rest.after, rest.found)
  }

  /** Text in which the first byte of the separator does not occur is passed over. */
  lemma {:induction false} CutAfter(before: Text, sep: Text, after: Text)
    requires sep != [] && sep[0] !in before
    ensures CutAt(before + sep + after, sep) == Cut(before, after, true)
  {
    var text := before + sep + after;
    if before == [] {
      assert text == sep + after;
    } else {
      assert text[0] == before[0] && text[0] != sep[0];
      assert text[1..] == before[1..] + sep + after;
      CutAfter(before[1..], sep, after);
    }
  }

  lemma {:induction false} CutNowhere(text: Text, sep: Text)
    requires sep != [] && sep[0] !in text
    ensures CutAt(text, sep) == Cut(text, [], false)
  {
    if text != [] {
      CutNowhere(text[1..], sep);
    }
  }

  // --- Forms ---

  const AMP: Text := ['&']
  const EQ: Text := ['=']

  function EncodePair(key: Text, value: Text): Text {
    Escape(key) + EQ + Escape(value)
  }

  /** The pairs of `form` for `keys`, in that order, joined by `&`. */
  function EncodeKeys(form: map<Text, Text>, keys: seq<Text>): Text
    requires forall k | k in keys :: k in form
  {
    if keys == [] then []
    else if |keys| == 1 then EncodePair(keys[0], form[keys[0]])
    else EncodePair(keys[0], form[keys[0]]) + AMP + EncodeKeys(form, keys[1..])
  }

  /** url.ParseQuery, adding to `form`; None where it reports an error. */
  function ParseInto(query: Text, form: map<Text, seq<Text>>): Option<map<Text, seq<Text>>>
    decreases |query|
  {
    if query == [] then Some(form)
    else
      CutShrinks(query, AMP);
      var cut := CutAt(query, AMP);
      if ';' in cut.before then None
      else if cut.before == [] then ParseInto(cut.after, form)
      else
        var pair := CutAt(cut.before, EQ);
        var key, value := Unescape(pair.before), Unescape(pair.after);
        if key.None? || value.None? then None
        else ParseInto(cut.after, form[key.value := (if key.value in form then form[key.value] else []) + [value.value]])
  }

  lemma {:induction false} CutShrinks(text: Text, sep: Text)
    requires sep != [] && text != []
    ensures |CutAt(text, sep).after| < |text|
  {
    if !(sep <= text) && |text| > 1 {
      CutShrinks(text[1..], sep);
    }
  }

  function ParseQuery(query: Text): Option<map<Text, seq<Text>>> {
    ParseInto(query, map[])
  }

  ghost predicate Distinct(keys: seq<Text>) {
    forall i, j | 0 <= i < j < |keys| :: keys[i] != keys[j]
  }

  /** Every key of `form` with its one value. */
  function Single(form: map<Text, Text>): map<Text, seq<Text>> {
    map k | k in form :: [form[k]]
  }

  lemma ParsePair(key: Text, value: Text)
    ensures var text := EncodePair(key, value);
      && text != [] && ';' !in text && '&' !in text
      && CutAt(text, EQ) == Cut(Escape(key), Escape(value), true)
  {
    EscapeRoundTrip(key);
    EscapeRoundTrip(value);
    EscapedHasNoSeparators(Escape(key));
    EscapedHasNoSeparators(Escape(value));
    CutAfter(Escape(key), EQ, Escape(value));
    forall b | b in EncodePair(key, value)
      ensures b != ';' && b != '&'
    {
      assert b in Escape(key) || b in EQ || b in Escape(value);
    }
  }

  /** One pair parsed off the front of a query. */
  lemma ParseFirst(key: Text, value: Text, rest: Text, form: map<Text, seq<Text>>)
    requires key !in form
    ensures ParseInto(EncodePair(key, value) + AMP + rest, form) == ParseInto(rest, form[key := [value]])
    ensures ParseInto(EncodePair(key, value), form) == Some(form[key := [value]])
  {
    var text := EncodePair(key, value);
    ParsePair(key, value);
    EscapeRoundTrip(key);
    EscapeRoundTrip(value);
    CutAfter(text, AMP, rest);
    CutNowhere(text, AMP);
    assert [] + [value] == [value];
    assert ParseInto([], form[key := [value]]) == Some(form[key := [value]]);
  }

  /** The part of `Single(form)` for `keys`. */
  function SingleFor(form: map<Text, Text>, keys: seq<Text>): map<Text, seq<Text>>
    requires forall k | k in keys :: k in form
  {
    map k | k in keys :: [form[k]]
  }

  lemma SingleForCons(form: map<Text, Text>, keys: seq<Text>, parsed: map<Text, seq<Text>>)
    requires keys != [] && forall k | k in keys :: k in form
    ensures parsed[keys[0] := [form[keys[0]]]] + SingleFor(form, keys[1..]) == parsed + SingleFor(form, keys)
  {
  }

  lemma {:induction false} ParseEncoded(form: map<Text, Text>, keys: seq<Text>, parsed: map<Text, seq<Text>>)
    requires Distinct(keys) && (forall k | k in keys :: k in form && k !in parsed)
    ensures ParseInto(EncodeKeys(form, keys), parsed) == Some(parsed + SingleFor(form, keys))
  {
    if keys == [] {
      assert parsed + SingleFor(form, keys) == parsed;
    } else {
      var key, rest := keys[0], keys[1..];
      var next := parsed[key := [form[key]]];
      ParseFirst(key, form[key], EncodeKeys(form, rest), parsed);
      SingleForCons(form, keys, parsed);
      ParseEncoded(form, rest, next);
      if |keys| == 1 {
        assert next + SingleFor(form, rest) == next;
      }
    }
  }

  // --- Sorted keys ---

  /** Bytewise lexicographic order, as sort.Strings uses. */
  predicate Less(a: Text, b: Text) {
    b != [] && (a == [] || a[0] < b[0] || (a[0] == b[0] && Less(a[1..], b[1..])))
  }

  /** The order is decided at the first position where the texts differ; a proper prefix comes first. */
  lemma {:induction false} LessMeans(a: Text, b: Text)
    ensures Less(a, b) <==>
      exists i | 0 <= i <= |a| && i < |b| :: a[..i] == b[..i] && (i == |a| || a[i] < b[i])
  {
    if Less(a, b) {
      var i := FirstDifference(a, b);
    } else {
      forall i | 0 <= i <= |a| && i < |b| && a[..i] == b[..i]
        ensures i < |a| && !(a[i] < b[i])
      {
        NotLess(a, b, i);
      }
    }
  }

  lemma {:induction false} FirstDifference(a: Text, b: Text) returns (i: nat)
    requires Less(a, b)
    ensures i <= |a| && i < |b| && a[..i] == b[..i] && (i == |a| || a[i] < b[i])
  {
    if a == [] || a[0] < b[0] {
      i := 0;
    } else {
      var j := FirstDifference(a[1..], b[1..]);
      i := j + 1;
      assert a[..i] == [a[0]] + a[1..][..j] && b[..i] == [b[0]] + b[1..][..j];
    }
  }

  lemma {:induction false} NotLess(a: Text, b: Text, i: nat)
    requires !Less(a, b) && i <= |a| && i < |b| && a[..i] == b[..i]
    ensures i < |a| && !(a[i] < b[i])
  {
    if i > 0 {
      assert a[0] == a[..i][0] == b[..i][0] == b[0];
      assert a[1..][..i - 1] == a[..i][1..] == b[..i][1..] == b[1..][..i - 1];
      NotLess(a[1..], b[1..], i - 1);
    }
  }

  lemma {:induction false} LessTotal(a: Text, b: Text)
    ensures a == b || Less(a, b) || Less(b, a)
  {
    if a != [] && b != [] && a[0] == b[0] {
      LessTotal(a[1..], b[1..]);
      assert a == [a[0]] + a[1..] && b == [b[0]] + b[1..];
    }
  }

  lemma {:induction false} LessTransitive(a: Text, b: Text, c: Text)
    requires Less(a, b) && Less(b, c)
    ensures Less(a, c)
  {
    if a != [] && a[0] == b[0] == c[0] {
      LessTransitive(a[1..], b[1..], c[1..]);
    }
  }

  predicate IsLeast(keys: set<Text>, least: Text) {
    least in keys && forall k | k in keys :: k == least || Less(least, k)
  }

  lemma {:induction false} LeastExists(keys: set<Text>)
    requires keys != {}
    ensures exists k :: IsLeast(keys, k)
  {
    var k :| k in keys;
    var others := keys - {k};
    assert keys == others + {k};
    if others == {} {
      assert IsLeast(keys, k);
    } else {
      LeastExists(others);
      var m :| IsLeast(others, m);
      LessTotal(k, m);
      var least := if Less(k, m) then k else m;
      forall j | j in keys
        ensures j == least || Less(least, j)
      {
        if j in others && j != m && least == k {
          LessTransitive(k, m, j);
        }
      }
      assert IsLeast(keys, least);
    }
  }

  ghost predicate Sorted(keys: seq<Text>) {
    forall i, j | 0 <= i < j < |keys| :: Less(keys[i], keys[j])
  }

  lemma {:induction false} LessIrreflexive(a: Text)
    ensures !Less(a, a)
  {
    if a != [] {
      LessIrreflexive(a[1..]);
    }
  }

  lemma SortedDistinct(keys: seq<Text>)
    requires Sorted(keys)
    ensures Distinct(keys)
  {
    forall i, j | 0 <= i < j < |keys|
      ensures keys[i] != keys[j]
    {
      LessIrreflexive(keys[i]);
    }
  }

  /** One more pair: `&` in front of it unless it is the first, and `=` between key and value. */
  lemma {:induction false} EncodeSnoc(form: map<Text, Text>, keys: seq<Text>, key: Text)
    requires (forall k | k in keys :: k in form) && key in form
    ensures EncodeKeys(form, keys + [key]) ==
      (if keys == [] then [] else EncodeKeys(form, keys) + "&") + (Escape(key) + "=" + Escape(form[key]))
  {
    hide Escape;
    var pair := EncodePair(key, form[key]);
    if keys == [] {
      assert keys + [key] == [key];
    } else {
      EncodeSnoc(form, keys[1..], key);
      assert (keys + [key])[0] == keys[0] && (keys + [key])[1..] == keys[1..] + [key];
      var first := EncodePair(keys[0], form[keys[0]]);
      if |keys| > 1 {
        var rest := EncodeKeys(form, keys[1..]);
        assert first + AMP + (rest + AMP + pair) == first + AMP + rest + AMP + pair;
      } else {
        assert [] + pair == pair;
      }
    }
  }

  lemma EncodedIsNonEmpty(form: map<Text, Text>, keys: seq<Text>)
    requires forall k | k in keys :: k in form
    ensures EncodeKeys(form, keys) == [] <==> keys == []
  {
  }

  /** The query for all keys of a form parses back to it. */
  lemma ParseWhole(form: map<Text, Text>, keys: seq<Text>)
    requires Sorted(keys) && forall k :: k in keys <==> k in form
    ensures ParseQuery(EncodeKeys(form, keys)) == Some(Single(form))
  {
    SortedDistinct(keys);
    ParseEncoded(form, keys, map[]);
    assert map[] + SingleFor(form, keys) == Single(form);
  }

  lemma SortedSnoc(keys: seq<Text>, key: Text)
    requires Sorted(keys) && forall k | k in keys :: Less(k, key)
    ensures Sorted(keys + [key])
  {
  }

  /** url.Values.Encode for single-valued keys: sorted by key, and ParseQuery gives the form back. */
  method Encode(form: map<Text, Text>) returns (query: Text, keys: seq<Text>)
    ensures Sorted(keys) && (forall k :: k in keys <==> k in form)
    ensures query == EncodeKeys(form, keys)
    ensures ParseQuery(query) == Some(Single(form))
  {
    query, keys := [], [];
    var left := form.Keys;
    while left != {}
      invariant left <= form.Keys
      invariant forall k :: k in keys <==> k in form && k !in left
      invariant Sorted(keys) && forall k, l | k in keys && l in left :: Less(k, l)
      invariant query == EncodeKeys(form, keys)
      decreases left
    {
      LeastExists(left);
      var key :| key in left && IsLeast(left, key);
      EncodeSnoc(form, keys, key);
      EncodedIsNonEmpty(form, keys);
      SortedSnoc(keys, key);
      if query != [] {
        query := query + AMP;
      }
      query := query + (Escape(key) + EQ + Escape(form[key]));
      keys, left := keys + [key], left - {key};
    }
    ParseWhole(form, keys);
  }
}
