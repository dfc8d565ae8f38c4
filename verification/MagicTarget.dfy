/**
 The two encodings of a magic link (internal/proxy/response.go): the JSON blob and the deep link into the
 app. Decoding the deep link gives exactly the fields of the blob.
 */
module MagicTarget {
  import opened Options
  import opened Config
  import opened FormEncoding

  const ACCESS: Text := "access_token"
  const REFRESH: Text := "refresh_token"
  const TYPE: Text := "token_type"
  const EXPIRES: Text := "expires_in"
  const BEARER: Text := "bearer"
  const SEPARATOR: Text := "://auth?"

  /** A JSON value of the blob. */
  datatype Value = Str(text: Text) | Num(n: int)

  function MagicTokenType(magic: MagicLink): Text {
    if magic.tokenType == "" then BEARER else magic.tokenType
  }

  // --- Decimals ---

  function DigitOf(n: int): (b: Byte)
    requires 0 <= n < 10
    ensures '0' <= b <= '9'
  {
    ('0' as int + n) as char
  }

  /** strconv.Itoa, for the values it is called on. */
  function Itoa(n: nat): (text: Text)
    ensures text != []
  {
    if n < 10 then [DigitOf(n)] else Itoa(n / 10) + [DigitOf(n % 10)]
  }

  /** A decimal read back; None unless it is a non-empty string of digits. */
  function ParseDecimal(text: Text): Option<nat>
    decreases |text|
  {
    if text == [] then None
    else
      var last := text[|text| - 1];
      if !('0' <= last <= '9') then None
      else if |text| == 1 then Some(last as int - '0' as int)
      else match ParseDecimal(text[..|text| - 1])
        case None => None
        case Some(high) => Some(10 * high + (last as int - '0' as int))
  }

  /** A printed number reads back, and has no leading zero. */
  lemma {:induction false} DecimalRoundTrip(n: nat)
    ensures ParseDecimal(Itoa(n)) == Some(n)
    ensures n > 0 ==> Itoa(n)[0] != '0'
  {
    if n >= 10 {
      DecimalRoundTrip(n / 10);
      assert Itoa(n)[..|Itoa(n)| - 1] == Itoa(n / 10);
    }
  }

  /** It is the only such text. */
  lemma {:induction false} DecimalIsCanonical(text: Text, n: nat)
    requires ParseDecimal(text) == Some(n) && (|text| == 1 || text[0] != '0')
    ensures text == Itoa(n)
    decreases |text|
  {
    if |text| > 1 {
      var high := text[..|text| - 1];
      DecimalIsCanonical(high, ParseDecimal(high).value);
      assert text == high + [text[|text| - 1]];
    }
  }

  // --- The fields both encodings carry ---

  lemma KeysDiffer()
    ensures ACCESS != REFRESH && ACCESS != TYPE && ACCESS != EXPIRES
    ensures REFRESH != TYPE && REFRESH != EXPIRES && TYPE != EXPIRES
  {
  }

  /** The value of one key, if the encodings have it at all. */
  function FieldOf(magic: MagicLink, key: Text): Option<Value> {
    if key == ACCESS then Some(Str(magic.accessToken))
    else if key == TYPE then Some(Str(MagicTokenType(magic)))
    else if key == REFRESH then if magic.refreshToken == "" then None else Some(Str(magic.refreshToken))
    else if key == EXPIRES then if magic.expiresIn > 0 then Some(Num(magic.expiresIn)) else None
    else None
  }

  ghost predicate HasFields(blob: map<Text, Value>, magic: MagicLink) {
    forall key: Text :: FieldOf(magic, key) == if key in blob then Some(blob[key]) else None
  }

  /** The fields key by key: the two tokens, the type with its default, the expiry if it is positive, nothing else. */
  predicate SpellsOut(fields: map<Text, Value>, magic: MagicLink) {
    && "access_token" in fields && fields["access_token"] == Str(magic.accessToken)
    && "token_type" in fields
    && fields["token_type"] == Str(if magic.tokenType == "" then "bearer" else magic.tokenType)
    && ("refresh_token" in fields <==> magic.refreshToken != "")
    && ("refresh_token" in fields ==> fields["refresh_token"] == Str(magic.refreshToken))
    && ("expires_in" in fields <==> magic.expiresIn > 0)
    && ("expires_in" in fields ==> fields["expires_in"] == Num(magic.expiresIn))
    && forall key | key in fields :: key in {"access_token", "token_type", "refresh_token", "expires_in"}
  }

  lemma FieldsSpelledOut(fields: map<Text, Value>, magic: MagicLink)
    requires HasFields(fields, magic)
    ensures SpellsOut(fields, magic)
  {
    KeysDiffer();
    assert FieldOf(magic, ACCESS).Some? && FieldOf(magic, TYPE).Some?;
    assert FieldOf(magic, REFRESH).Some? <==> magic.refreshToken != "";
    assert FieldOf(magic, EXPIRES).Some? <==> magic.expiresIn > 0;
    forall key | key in fields
      ensures key in {ACCESS, TYPE, REFRESH, EXPIRES}
    {
      assert FieldOf(magic, key).Some?;
    }
  }

  /** No two different maps have the same fields. */
  lemma FieldsDetermine(a: map<Text, Value>, b: map<Text, Value>, magic: MagicLink)
    requires HasFields(a, magic) && HasFields(b, magic)
    ensures a == b
  {
  }

  method MagicTokenBlob(magic: MagicLink) returns (blob: map<Text, Value>)
    ensures HasFields(blob, magic) && SpellsOut(blob, magic)
  {
    KeysDiffer();
    blob := map[ACCESS := Str(magic.accessToken), TYPE := Str(MagicTokenType(magic))];
    if magic.refreshToken != "" {
      blob := blob[REFRESH := Str(magic.refreshToken)];
    }
    if magic.expiresIn > 0 {
      blob := blob[EXPIRES := Num(magic.expiresIn)];
    }
    FieldsSpelledOut(blob, magic);
  }

  // --- Reading a deep link ---

  /** One form field: every key has one value, and `expires_in` is a decimal. */
  function ReadValue(key: Text, values: seq<Text>): Option<Value> {
    if |values| != 1 then None
    else if key != EXPIRES then Some(Str(values[0]))
    else match ParseDecimal(values[0])
      case None => None
      case Some(n) => Some(Num(n))
  }

  function ReadForm(form: map<Text, seq<Text>>): Option<map<Text, Value>> {
    if forall k | k in form :: ReadValue(k, form[k]).Some?
    then Some(map k | k in form :: ReadValue(k, form[k]).value)
    else None
  }

  /** A link read by the app: scheme, and the fields of the query. */
  datatype DeepLink = DeepLink(scheme: Text, fields: map<Text, Value>)

  function ReadDeepLink(url: Text): Option<DeepLink> {
    var cut := CutAt(url, SEPARATOR);
    if !cut.found then None
    else match ParseQuery(cut.after)
      case None => None
      case Some(form) =>
        match ReadForm(form)
        case None => None
        case Some(fields) => Some(DeepLink(cut.before, fields))
  }

  /** The form holds, as text, exactly the fields. */
  ghost predicate FormFits(form: map<Text, Text>, magic: MagicLink) {
    forall key: Text ::
      if key in form then FieldOf(magic, key).Some? && FieldOf(magic, key) == ReadValue(key, [form[key]])
      else FieldOf(magic, key).None?
  }

  lemma ReadFittingForm(form: map<Text, Text>, magic: MagicLink)
    requires FormFits(form, magic)
    ensures ReadForm(Single(form)).Some? && HasFields(ReadForm(Single(form)).value, magic)
  {
  }

  lemma SchemesHaveNoColon(scheme: Text)
    requires IsAllowedAppScheme(scheme)
    ensures ':' !in scheme
  {
  }

  lemma ReadTarget(scheme: Text, query: Text, form: map<Text, Text>, magic: MagicLink)
    requires ':' !in scheme && ParseQuery(query) == Some(Single(form)) && FormFits(form, magic)
    ensures var read := ReadDeepLink(scheme + SEPARATOR + query);
      read.Some? && read.value.scheme == scheme && HasFields(read.value.fields, magic)
  {
    CutAfter(scheme, SEPARATOR, query);
    ReadFittingForm(form, magic);
  }

  /** The form.Set calls of magicTargetURL. */
  method MagicForm(magic: MagicLink) returns (form: map<Text, Text>)
    ensures FormFits(form, magic)
  {
    KeysDiffer();
    form := map[];
    form := form[ACCESS := magic.accessToken];
    if magic.refreshToken != "" {
      form := form[REFRESH := magic.refreshToken];
    }
    form := form[TYPE := MagicTokenType(magic)];
    if magic.expiresIn > 0 {
      form := form[EXPIRES := Itoa(magic.expiresIn)];
      DecimalRoundTrip(magic.expiresIn);
    }
  }

  /**
   The deep link. For every link and every allowed scheme - and `ResolveAppScheme` returns no other - reading
   it gives the scheme and exactly the fields of the JSON blob.
   */
  method MagicTargetURL(magic: MagicLink, scheme: Text) returns (url: Text)
    ensures IsAllowedAppScheme(scheme) ==>
      && ReadDeepLink(url).Some?
      && ReadDeepLink(url).value.scheme == scheme
      && HasFields(ReadDeepLink(url).value.fields, magic) && SpellsOut(ReadDeepLink(url).value.fields, magic)
    ensures scheme + "://auth?" <= url
    ensures exists form: map<Text, Text>, keys: seq<Text> ::
      && Sorted(keys) && (forall k :: k in keys <==> k in form)
      && FormFits(form, magic) && url == scheme + SEPARATOR + EncodeKeys(form, keys)
  {
    var form := MagicForm(magic);
    var query, keys := Encode(form);
    url := scheme + SEPARATOR + query;
    if IsAllowedAppScheme(scheme) {
      SchemesHaveNoColon(scheme);
      ReadTarget(scheme, query, form, magic);
      FieldsSpelledOut(ReadDeepLink(url).value.fields, magic);
    }
  }

  /** The two encodings agree, for every link and every requested scheme. */
  method BothEncodings(magic: MagicLink, requested: Text) returns (blob: map<Text, Value>, url: Text)
    ensures ReadDeepLink(url) == Some(DeepLink(ResolveAppScheme(requested), blob))
    ensures HasFields(blob, magic) && SpellsOut(blob, magic)
  {
    blob := MagicTokenBlob(magic);
    url := MagicTargetURL(magic, ResolveAppScheme(requested));
    FieldsDetermine(blob, ReadDeepLink(url).value.fields, magic);
  }
}
