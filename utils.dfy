/**
 * The validators of the utilities module and `deflate_dict`. Each validator
 * either returns the (possibly normalised) value or raises; a raise is an
 * `Err` carrying the exception class.
 */
module Utils {
  import opened Base
  import opened Frames

  /** Bounds on the JSON text of a frame's data and meta mappings. */
  const DATA_SIZE_LIMIT: nat := 1024 * 10
  const META_SIZE_LIMIT: nat := 512

  // ---------------------------------------------------------------------
  // Python string helpers: str.isspace, str.strip, str.lower
  // ---------------------------------------------------------------------

  /** The code points for which Python's str.isspace holds. */
  predicate IsSpace(c: char) {
    || ('\t' <= c <= '\r')
    || ('\U{1c}' <= c <= '\U{20}')
    || c == '\U{85}' || c == '\U{a0}' || c == '\U{1680}'
    || ('\U{2000}' <= c <= '\U{200a}')
    || c == '\U{2028}' || c == '\U{2029}' || c == '\U{202f}' || c == '\U{205f}' || c == '\U{3000}'
  }

  predicate AllSpace(s: string) {
    forall i :: 0 <= i < |s| ==> IsSpace(s[i])
  }

  /** Neither the first nor the last character is whitespace. */
  predicate NoEdgeSpace(s: string) {
    s != [] ==> !IsSpace(s[0]) && !IsSpace(s[|s| - 1])
  }

  /** `s` with its leading whitespace removed. */
  function StripLeft(s: string): (r: string)
    ensures |r| <= |s| && r == s[|s| - |r|..]
    ensures forall i :: 0 <= i < |s| - |r| ==> IsSpace(s[i])
    ensures r == [] || !IsSpace(r[0])
  {
    if |s| > 0 && IsSpace(s[0]) then StripLeft(s[1..]) else s
  }

  /** `s` with its trailing whitespace removed. */
  function StripRight(s: string): (r: string)
    ensures |r| <= |s| && r == s[..|r|]
    ensures forall i :: |r| <= i < |s| ==> IsSpace(s[i])
    ensures r == [] || !IsSpace(r[|r| - 1])
  {
    if |s| > 0 && IsSpace(s[|s| - 1]) then StripRight(s[..|s| - 1]) else s
  }

  /** The number of whitespace characters `s` starts with. */
  function LeadingSpaces(s: string): nat {
    |s| - |StripLeft(s)|
  }

  /** `r` is `s[i..]` up to its length, with only whitespace before and after it. */
  predicate StrippedWindow(s: string, r: string, i: int) {
    0 <= i <= |s| - |r| && r == s[i..i + |r|] && AllSpace(s[..i]) && AllSpace(s[i + |r|..])
  }

  /**
   * Python's `s.strip()`: the window of `s` left once the whitespace at both
   * edges is cut off; empty exactly when `s` is all whitespace.
   */
  function Strip(s: string): (r: string)
    ensures |r| <= |s|
    ensures NoEdgeSpace(r)
    ensures r == [] <==> AllSpace(s)
  {
    StripRight(StripLeft(s))
  }

  /**
   * `strip()` returns the text of `s` that starts after its leading
   * whitespace, and only whitespace follows that text in `s`.
   */
  lemma StripWindow(s: string)
    ensures StrippedWindow(s, Strip(s), LeadingSpaces(s))
  {
    LeadingSpace(s);
    TrailingSpace(StripLeft(s));
    SuffixWindow(s, StripLeft(s), StripRight(StripLeft(s)));
  }

  /**
   * A prefix `r` of a suffix `l` of `s` is a window of `s`, with whitespace
   * around it when `l` follows whitespace and `r` is followed by it.
   */
  lemma SuffixWindow(s: string, l: string, r: string)
    requires |l| <= |s| && l == s[|s| - |l|..] && AllSpace(s[..|s| - |l|])
    requires |r| <= |l| && r == l[..|r|] && AllSpace(l[|r|..])
    ensures StrippedWindow(s, r, |s| - |l|)
  {
    var i := |s| - |l|;
    assert s[i + |r|..] == l[|r|..];
  }

  /** What StripLeft cuts off is whitespace. */
  lemma LeadingSpace(s: string)
    ensures AllSpace(s[..|s| - |StripLeft(s)|])
  {
    var pre := s[..|s| - |StripLeft(s)|];
    forall k | 0 <= k < |pre| ensures IsSpace(pre[k]) {
      assert pre[k] == s[k];
    }
  }

  /** What StripRight cuts off is whitespace. */
  lemma TrailingSpace(s: string)
    ensures AllSpace(s[|StripRight(s)|..])
  {
    var post := s[|StripRight(s)|..];
    forall k | 0 <= k < |post| ensures IsSpace(post[k]) {
      assert post[k] == s[|StripRight(s)| + k];
    }
  }

  /** Stripping a string without edge whitespace changes nothing. */
  lemma StripNoop(s: string)
    requires NoEdgeSpace(s)
    ensures Strip(s) == s
  {
  }

  /** ASCII case mapping of one character. */
  function LowerChar(c: char): char {
    if 'A' <= c <= 'Z' then (c as int + 32) as char else c
  }

  /** `s.lower()` restricted to ASCII letters. */
  function Lower(s: string): (r: string)
    ensures |r| == |s|
    ensures forall i :: 0 <= i < |s| ==> r[i] == LowerChar(s[i])
  {
    if s == [] then [] else [LowerChar(s[0])] + Lower(s[1..])
  }

  predicate NoUpper(s: string) {
    forall i :: 0 <= i < |s| ==> !('A' <= s[i] <= 'Z')
  }

  /** Lower-casing leaves no upper-case letter and keeps whitespace where it was. */
  lemma LowerFacts(s: string)
    ensures NoUpper(Lower(s))
    ensures forall i :: 0 <= i < |s| ==> (IsSpace(Lower(s)[i]) <==> IsSpace(s[i]))
    ensures NoEdgeSpace(s) ==> NoEdgeSpace(Lower(s))
    ensures NoUpper(s) ==> Lower(s) == s
  {
    forall i | 0 <= i < |s|
      ensures !('A' <= Lower(s)[i] <= 'Z') && (IsSpace(Lower(s)[i]) <==> IsSpace(s[i]))
    {
      LowerCharFacts(s[i]);
    }
  }

  /** A lower-cased character is not upper-case, and is whitespace iff the original was. */
  lemma LowerCharFacts(c: char)
    ensures !('A' <= LowerChar(c) <= 'Z')
    ensures IsSpace(LowerChar(c)) <==> IsSpace(c)
  {
    if 'A' <= c <= 'Z' {
      assert 'a' <= LowerChar(c) <= 'z';
    }
  }

  // ---------------------------------------------------------------------
  // deflate_dict
  // ---------------------------------------------------------------------

  /** Keeps exactly the entries whose value is truthy, with the value unchanged. */
  function DeflateDict<V>(m: map<string, V>, truthy: V -> bool): (r: map<string, V>)
    ensures forall k :: k in r <==> k in m && truthy(m[k])
    ensures forall k :: k in r ==> r[k] == m[k]
  {
    map k | k in m && truthy(m[k]) :: m[k]
  }

  /** Deflating twice is deflating once. */
  lemma DeflateDictIdempotent<V>(m: map<string, V>, truthy: V -> bool)
    ensures DeflateDict(DeflateDict(m, truthy), truthy) == DeflateDict(m, truthy)
  {
  }

  // ---------------------------------------------------------------------
  // validate_handler, validate_name, validate_kind
  // ---------------------------------------------------------------------

  datatype HandlerArg = HandlerNone | IsHandler(h: Handler) | HandlerOther

  function ValidateHandler(handler: HandlerArg): (r: Result<Option<Handler>>)
    ensures handler.HandlerNone? ==> r == Ok(None)
    ensures handler.IsHandler? ==> r == Ok(Some(handler.h))
    ensures handler.HandlerOther? ==> r == Err(ValueError)
  {
    match handler
    case HandlerNone => Ok(None)
    case IsHandler(h) => Ok(Some(h))
    case HandlerOther => Err(ValueError)
  }

  /**
   * None passes through; a non-string, an empty or all-whitespace string and
   * a string longer than `maxLength` (FRAME_NAME_MAX_LENGTH) raise ValueError;
   * any other string is returned unchanged, not stripped.
   */
  function ValidateName(name: PyValue, maxLength: nat): (r: Result<Option<string>>)
    ensures r == Ok(None) <==> name.PyNone?
    ensures r.Err? <==> (name.PyOther? || (name.PyStr? && (AllSpace(name.s) || |name.s| > maxLength)))
    ensures r.Err? ==> r.error == ValueError
    ensures r.Ok? && r.value.Some? ==> name == PyStr(r.value.value) && |r.value.value| <= maxLength
  {
    match name
    case PyNone => Ok(None)
    case PyOther => Err(ValueError)
    case PyStr(s) =>
      if |s| == 0 || |Strip(s)| == 0 then Err(ValueError)
      else if |s| > maxLength then Err(ValueError)
      else Ok(Some(s))
  }

  /** A name that validated is accepted again as it is. */
  lemma ValidateNameIdempotent(name: PyValue, maxLength: nat)
    requires ValidateName(name, maxLength).Ok? && ValidateName(name, maxLength).value.Some?
    ensures ValidateName(PyStr(ValidateName(name, maxLength).value.value), maxLength) == ValidateName(name, maxLength)
  {
  }

  /** The argument of validate_kind: None, an int, a KINDS member, anything else. */
  datatype KindArg = KindNone | KindInt(i: int) | KindMember(k: Kind) | KindOther

  /**
   * None becomes UNSET; an int is looked up by value (`byValue` stands for
   * the enumeration's value table, which is not part of this model) and an
   * unknown value raises ValueError; a member is returned; anything else raises.
   */
  function ValidateKind(kind: KindArg, byValue: int -> Option<Kind>): (r: Result<Kind>)
    ensures kind.KindNone? ==> r == Ok(Unset)
    ensures kind.KindMember? ==> r == Ok(kind.k)
    ensures kind.KindInt? ==> (r.Ok? <==> byValue(kind.i).Some?)
    ensures kind.KindInt? && r.Ok? ==> r.value == byValue(kind.i).value
    ensures r.Err? ==> r.error == ValueError && (kind.KindOther? || kind.KindInt?)
  {
    match kind
    case KindNone => Ok(Unset)
    case KindInt(i) => if byValue(i).Some? then Ok(byValue(i).value) else Err(ValueError)
    case KindMember(k) => Ok(k)
    case KindOther => Err(ValueError)
  }

  // ---------------------------------------------------------------------
  // validate_data, validate_meta
  // ---------------------------------------------------------------------

  /**
   * The argument of validate_data: None, a dict, a FrameData wrapper, or another
   * object with its Python truthiness. A FrameData object is taken to be truthy.
   */
  datatype DataArg<V> = DataNone | DataDict(m: map<string, V>) | DataFrameData(m: map<string, V>) | DataOther(truthy: bool)

  datatype FrameData<V> = FrameData(data: map<string, V>)

  predicate DataFalsy<V>(data: DataArg<V>) {
    data.DataNone? || (data.DataDict? && |data.m| == 0) || (data.DataOther? && !data.truthy)
  }

  /**
   * Falsy input gives an empty FrameData; a FrameData is unwrapped; a mapping
   * whose serialized size (`size`, the length of its JSON text) is below
   * DATA_SIZE_LIMIT is wrapped unchanged; anything else fails an assertion.
   */
  function ValidateData<V>(data: DataArg<V>, size: map<string, V> -> nat): (r: Result<FrameData<V>>)
    ensures DataFalsy(data) ==> r == Ok(FrameData(map[]))
    ensures !DataFalsy(data) ==>
      (r.Ok? <==> (data.DataDict? || data.DataFrameData?) && size(data.m) < DATA_SIZE_LIMIT)
    ensures !DataFalsy(data) && r.Ok? ==> r.value.data == data.m
    ensures r.Err? ==> r.error == AssertionError
  {
    if DataFalsy(data) then Ok(FrameData(map[]))
    else if data.DataOther? then Err(AssertionError)
    else if size(data.m) < DATA_SIZE_LIMIT then Ok(FrameData(data.m))
    else Err(AssertionError)
  }

  /** Re-validating validated data, as a FrameData, gives it back. */
  lemma ValidateDataIdempotent<V>(data: DataArg<V>, size: map<string, V> -> nat)
    requires size(map[]) < DATA_SIZE_LIMIT
    requires ValidateData(data, size).Ok?
    ensures ValidateData(DataFrameData(ValidateData(data, size).value.data), size) == ValidateData(data, size)
  {
  }

  datatype MetaArg<V> = MetaNone | MetaDict(m: map<string, V>) | MetaOther

  /** None becomes {}; a dict below META_SIZE_LIMIT is returned as it is. */
  function ValidateMeta<V>(meta: MetaArg<V>, size: map<string, V> -> nat): (r: Result<map<string, V>>)
    ensures meta.MetaNone? ==> r == Ok(map[])
    ensures meta.MetaDict? ==> (r.Ok? <==> size(meta.m) < META_SIZE_LIMIT)
    ensures meta.MetaDict? && r.Ok? ==> r.value == meta.m
    ensures meta.MetaOther? ==> r == Err(AssertionError)
    ensures r.Err? ==> r.error == AssertionError
  {
    match meta
    case MetaNone => Ok(map[])
    case MetaDict(m) => if size(m) < META_SIZE_LIMIT then Ok(m) else Err(AssertionError)
    case MetaOther => Err(AssertionError)
  }

  // ---------------------------------------------------------------------
  // validate_id, validate_endpoint, validate_space, validate_auth
  // ---------------------------------------------------------------------

  function ValidateId(id: PyValue): (r: Result<Option<string>>)
    ensures r == Ok(None) <==> id.PyNone?
    ensures id.PyStr? ==> r == Ok(Some(id.s))
    ensures r.Err? <==> id.PyOther?
    ensures r.Err? ==> r.error == AssertionError
  {
    match id
    case PyNone => Ok(None)
    case PyStr(s) => Ok(Some(s))
    case PyOther => Err(AssertionError)
  }

  /** `r` is the lower-cased `s[i..]` up to its length, with only whitespace before and after it in `s`. */
  predicate LoweredWindow(s: string, r: string, i: int) {
    0 <= i <= |s| - |r| && r == Lower(s[i..i + |r|]) && AllSpace(s[..i]) && AllSpace(s[i + |r|..])
  }

  /**
   * A non-string raises ValueError; a string is returned stripped and
   * lower-cased.
   */
  function ValidateEndpoint(endpoint: PyValue): (r: Result<string>)
    ensures r.Err? <==> !endpoint.PyStr?
    ensures r.Err? ==> r.error == ValueError
    ensures r.Ok? ==> |r.value| <= |endpoint.s| && NoEdgeSpace(r.value) && NoUpper(r.value)
    ensures r.Ok? ==> (r.value == [] <==> AllSpace(endpoint.s))
    ensures r.Ok? ==> LoweredWindow(endpoint.s, r.value, LeadingSpaces(endpoint.s))
  {
    match endpoint
    case PyStr(s) =>
      LowerFacts(Strip(s));
      StripWindow(s);
      LowerWindow(s, Strip(s), LeadingSpaces(s));
      Ok(Lower(Strip(s)))
    case _ => Err(ValueError)
  }

  /** A lower-cased window is the lower-cased text at the same place. */
  lemma LowerWindow(s: string, t: string, i: int)
    requires StrippedWindow(s, t, i)
    ensures LoweredWindow(s, Lower(t), i)
  {
    assert |Lower(t)| == |t|;
  }

  /** A validated endpoint validates to itself. */
  lemma ValidateEndpointIdempotent(endpoint: PyValue)
    requires ValidateEndpoint(endpoint).Ok?
    ensures ValidateEndpoint(PyStr(ValidateEndpoint(endpoint).value)) == ValidateEndpoint(endpoint)
  {
    var e := ValidateEndpoint(endpoint).value;
    StripNoop(e);
    LowerFacts(e);
  }

  function ValidateSpace(space: PyValue): (r: Result<string>)
    ensures r.Ok? <==> space.PyStr?
    ensures r.Ok? ==> r.value == space.s
    ensures r.Err? ==> r.error == ValueError
  {
    if space.PyStr? then Ok(space.s) else Err(ValueError)
  }

  /** id, space and auth come back as they were given, so validating a validated value again gives the same. */
  lemma PassThroughValidatorsIdempotent(v: PyValue)
    ensures ValidateId(v).Ok? && ValidateId(v).value.Some? ==> ValidateId(PyStr(ValidateId(v).value.value)) == ValidateId(v)
    ensures ValidateSpace(v).Ok? ==> ValidateSpace(PyStr(ValidateSpace(v).value)) == ValidateSpace(v)
    ensures ValidateAuth(v).Ok? && ValidateAuth(v).value.Some? ==> ValidateAuth(PyStr(ValidateAuth(v).value.value)) == ValidateAuth(v)
  {
  }

  function ValidateAuth(auth: PyValue): (r: Result<Option<string>>)
    ensures r == Ok(None) <==> auth.PyNone?
    ensures auth.PyStr? ==> r == Ok(Some(auth.s))
    ensures r.Err? <==> auth.PyOther?
    ensures r.Err? ==> r.error == AssertionError
  {
    match auth
    case PyNone => Ok(None)
    case PyStr(s) => Ok(Some(s))
    case PyOther => Err(AssertionError)
  }
}
