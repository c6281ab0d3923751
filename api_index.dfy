/**
 * The API entry point's helpers: error-to-message conversion, response
 * wrapping, query-parameter flattening, upload validation and area
 * formatting.  Query parameters are produced as the ordered list of
 * (key, value) pairs appended to the search parameters; their URL encoding
 * is not modelled.
 */
module ApiIndex {
  import opened Wrappers
  import opened Js

  // ---------- handleApiError ----------

  const GenericError := "Có lỗi xảy ra"

  /** `handleApiError(error)`: the `message` of an object that has one
      (whatever its type), a string error itself, or the generic text. */
  function HandleApiError(error: JsValue): (r: JsValue)
    ensures HasKey(error, "message") ==> r == Prop(error, "message")
    ensures !HasKey(error, "message") && error.Str? ==> r == error
    ensures !HasKey(error, "message") && !error.Str? ==> r == Str(GenericError)
  {
    if Truthy(error) && IsObjectType(error) && HasKey(error, "message") then Prop(error, "message")
    else if error.Str? then error
    else Str(GenericError)
  }

  /** An `Error` built without a message yields its inherited empty message,
      and an empty string error yields the empty string: neither falls back
      to the generic text. */
  lemma EmptyMessagesPassThrough(props: map<string, JsValue>)
    requires "message" !in props
    ensures HandleApiError(Obj(props, true)) == Str("")
    ensures HandleApiError(Str("")) == Str("")
    ensures HandleApiError(Obj(props, false)) == Str(GenericError)
  {
  }

  // ---------- formatApiResponse ----------

  datatype FormattedResponse = FormattedResponse(success: JsValue, data: JsValue, message: JsValue)

  /** `formatApiResponse(response)`: each field falls back through `||`. */
  function FormatApiResponse(response: JsValue): (r: FormattedResponse)
    ensures Truthy(r.success) <==> Truthy(Prop(response, "success"))
    ensures !Truthy(Prop(response, "success")) ==> r.success == Bool(false)
    ensures Truthy(Prop(response, "data")) ==> r.data == Prop(response, "data")
    ensures !Truthy(Prop(response, "data")) ==> r.data == Null
    ensures Truthy(Prop(response, "message")) ==> r.message == Prop(response, "message")
    ensures !Truthy(Prop(response, "message")) && Truthy(Prop(response, "error")) ==> r.message == Prop(response, "error")
    ensures !Truthy(Prop(response, "message")) && !Truthy(Prop(response, "error")) ==> r.message == Str("Unknown error")
  {
    FormattedResponse(
      Or(Prop(response, "success"), Bool(false)),
      Or(Prop(response, "data"), Null),
      Or(Prop(response, "message"), Or(Prop(response, "error"), Str("Unknown error"))))
  }

  /** A response that is not an object (including `null`) formats to the
      defaults, and falsy data such as `0` or `""` is reported as `null`. */
  lemma FormatDefaults(response: JsValue, props: map<string, JsValue>)
    requires !response.Obj?
    requires "data" in props && (props["data"] == Num(0) || props["data"] == Str(""))
    ensures FormatApiResponse(response) == FormattedResponse(Bool(false), Null, Str("Unknown error"))
    ensures FormatApiResponse(Obj(props, false)).data == Null
  {
  }

  // ---------- buildQueryParams ----------

  /** Values that `buildQueryParams` skips. */
  predicate Skipped(v: JsValue) {
    v == Undefined || v == Null || v == Str("")
  }

  /** The pairs one array element list contributes under `key`. */
  function ArrayPairs(key: string, items: seq<JsValue>): seq<(string, string)> {
    seq(|items|, j requires 0 <= j < |items| => (key, ToJsString(items[j])))
  }

  /** The pairs one entry contributes. */
  function EntryPairs(key: string, value: JsValue): seq<(string, string)> {
    if Skipped(value) then []
    else if value.Arr? then ArrayPairs(key, value.items)
    else [(key, ToJsString(value))]
  }

  /** The pairs of all entries, in entry order. */
  function QueryPairs(params: seq<(string, JsValue)>): seq<(string, string)>
    decreases |params|
  {
    if params == [] then []
    else QueryPairs(params[..|params| - 1]) + EntryPairs(params[|params| - 1].0, params[|params| - 1].1)
  }

  /** `buildQueryParams(params)`: the pairs appended, entry by entry. */
  method BuildQueryParams(params: seq<(string, JsValue)>) returns (pairs: seq<(string, string)>)
    ensures pairs == QueryPairs(params)
  {
    pairs := [];
    for i := 0 to |params|
      invariant pairs == QueryPairs(params[..i])
    {
      var (key, value) := params[i];
      assert params[..i + 1][..i] == params[..i];
      if value != Undefined && value != Null && value != Str("") {
        if value.Arr? {
          for j := 0 to |value.items|
            invariant pairs == QueryPairs(params[..i]) + ArrayPairs(key, value.items[..j])
          {
            assert ArrayPairs(key, value.items[..j + 1]) == ArrayPairs(key, value.items[..j]) + [(key, ToJsString(value.items[j]))];
            pairs := pairs + [(key, ToJsString(value.items[j]))];
          }
          assert value.items[..|value.items|] == value.items;
        } else {
          pairs := pairs + [(key, ToJsString(value))];
        }
      }
    }
    assert params[..|params|] == params;
  }

  /** Appending one entry appends its pairs. */
  lemma QueryPairsSnoc(params: seq<(string, JsValue)>, key: string, value: JsValue)
    ensures QueryPairs(params + [(key, value)]) == QueryPairs(params) + EntryPairs(key, value)
  {
    assert (params + [(key, value)])[..|params|] == params;
  }

  lemma SplitLast<T>(a: seq<T>, b: seq<T>)
    requires b != []
    ensures a + b == (a + b[..|b| - 1]) + [b[|b| - 1]]
    ensures b == b[..|b| - 1] + [b[|b| - 1]]
  {
  }

  lemma ConcatAssoc<T>(x: seq<T>, y: seq<T>, z: seq<T>)
    ensures (x + y) + z == x + (y + z)
  {
  }

  /** Entry order is kept: the pairs of a concatenation are the
      concatenation of the pairs. */
  lemma {:induction false} QueryPairsAppend(a: seq<(string, JsValue)>, b: seq<(string, JsValue)>)
    ensures QueryPairs(a + b) == QueryPairs(a) + QueryPairs(b)
    decreases |b|
  {
    if b == [] {
      assert a + b == a;
    } else {
      var b' := b[..|b| - 1];
      var last := b[|b| - 1];
      SplitLast(a, b);
      QueryPairsAppend(a, b');
      QueryPairsSnoc(a + b', last.0, last.1);
      QueryPairsSnoc(b', last.0, last.1);
      ConcatAssoc(QueryPairs(a), QueryPairs(b'), EntryPairs(last.0, last.1));
    }
  }

  /** An entry with an undefined, null or empty value leaves no trace. */
  lemma SkippedEntryDropped(a: seq<(string, JsValue)>, key: string, value: JsValue, b: seq<(string, JsValue)>)
    requires Skipped(value)
    ensures QueryPairs(a + [(key, value)] + b) == QueryPairs(a + b)
  {
    var e := [(key, value)];
    QueryPairsAppend(a + e, b);
    QueryPairsAppend(a, e);
    QueryPairsAppend(a, b);
    SkippedSingleEmpty(key, value);
    assert QueryPairs(a + e) == QueryPairs(a);
  }

  /** A lone skipped entry contributes no pair. */
  lemma SkippedSingleEmpty(key: string, value: JsValue)
    requires Skipped(value)
    ensures QueryPairs([(key, value)]) == []
  {
    assert [(key, value)][..0] == [];
  }

  /** Every pair carries the key of an entry that was not skipped. */
  lemma {:induction false} PairsComeFromKeptEntries(params: seq<(string, JsValue)>)
    ensures forall p :: p in QueryPairs(params) ==>
      exists i :: 0 <= i < |params| && params[i].0 == p.0 && !Skipped(params[i].1)
    decreases |params|
  {
    if params != [] {
      var init := params[..|params| - 1];
      PairsComeFromKeptEntries(init);
      forall p | p in QueryPairs(params)
        ensures exists i :: 0 <= i < |params| && params[i].0 == p.0 && !Skipped(params[i].1)
      {
        if p in QueryPairs(init) {
          var i :| 0 <= i < |init| && init[i].0 == p.0 && !Skipped(init[i].1);
          assert params[i] == init[i];
        } else {
          var last := params[|params| - 1];
          assert p in EntryPairs(last.0, last.1);
        }
      }
    }
  }

  /** An array expands to one pair per element, in element order, each
      element converted with `String(item)` (so `null` becomes "null"). */
  lemma ArrayExpansion(key: string, items: seq<JsValue>)
    requires items != []
    ensures QueryPairs([(key, Arr(items))]) == ArrayPairs(key, items)
    ensures QueryPairs([(key, Arr([Str("a"), Null]))]) == [(key, "a"), (key, "null")]
  {
    assert QueryPairs([(key, Arr(items))]) == QueryPairs([]) + EntryPairs(key, Arr(items));
    var one := [(key, Arr([Str("a"), Null]))];
    assert QueryPairs(one) == QueryPairs([]) + EntryPairs(key, Arr([Str("a"), Null]));
  }

  // ---------- validateFileUpload ----------

  const DefaultMaxSize := 10 * 1024 * 1024
  const DefaultAllowedTypes: seq<string> := ["image/jpeg", "image/png", "image/webp", "image/gif"]

  /** The outcome; the size limit or the accepted types are what the error
      text reports. */
  datatype UploadCheck = FileValid | FileTooLarge(maxSize: int) | UnsupportedType(allowedTypes: seq<string>)

  /** `validateFileUpload(file, options)`: the size check, then the type
      check; an option left undefined takes its default. */
  function ValidateFileUpload(size: int, fileType: string, maxSize: Option<int>, allowedTypes: Option<seq<string>>)
    : (r: UploadCheck)
    ensures var max := maxSize.GetOr(DefaultMaxSize);
            var allowed := allowedTypes.GetOr(DefaultAllowedTypes);
            (r == FileTooLarge(max) <==> size > max) &&
            (r == UnsupportedType(allowed) <==> size <= max && fileType !in allowed) &&
            (r == FileValid <==> size <= max && fileType in allowed)
  {
    var max := maxSize.GetOr(DefaultMaxSize);
    var allowed := allowedTypes.GetOr(DefaultAllowedTypes);
    if size > max then FileTooLarge(max)
    else if fileType !in allowed then UnsupportedType(allowed)
    else FileValid
  }

  /** With the defaults: exactly 10 MiB passes the size check, one byte more
      fails it even for an unsupported type, and a GIF is accepted. */
  lemma UploadDefaults()
    ensures ValidateFileUpload(DefaultMaxSize, "image/gif", None, None) == FileValid
    ensures ValidateFileUpload(DefaultMaxSize + 1, "text/plain", None, None) == FileTooLarge(10485760)
    ensures ValidateFileUpload(1, "image/jpg", None, None) == UnsupportedType(DefaultAllowedTypes)
  {
    assert DefaultAllowedTypes[3] == "image/gif";
    assert "image/jpg" != DefaultAllowedTypes[0];
  }

  // ---------- formatArea ----------

  /** `formatArea(area)`: the number, a space and the square-metre sign. */
  function FormatArea(area: int): (r: string)
    ensures |r| >= 4 && r[|r| - 3..] == " m²"
    ensures area >= 0 ==> IsDigits(r[..|r| - 3]) && DigitsValue(r[..|r| - 3]) == area
    ensures area > 0 ==> r[0] != '0'
    ensures area < 0 ==> r[0] == '-' && r[1] != '0' &&
                         IsDigits(r[1..|r| - 3]) && DigitsValue(r[1..|r| - 3]) == -area
  {
    NatToStringRoundTrip(if area >= 0 then area else -area);
    var r := IntToString(area) + " m²";
    assert r[..|r| - 3] == IntToString(area);
    assert area < 0 ==> r[1..|r| - 3] == NatToString(-area);
    r
  }
}
