/**
 * The attribute extractor (extractAttributes): projects every raw change record
 * onto the configured attribute names, or passes the records through untouched
 * when the configuration is the wildcard `*`.
 */
module Extraction {
  import opened Wrappers
  import opened JsStrings
  import opened Values

  /** configAttributes: APP_CHG_PROPS_TO_COPY split on commas. */
  function ConfigAttributes(propsToCopy: string): (attrs: seq<string>)
    ensures |attrs| >= 1
  {
    Split(propsToCopy, ",")
  }

  /** The configuration is exactly the one-element list `['*']`. */
  predicate IsWildcard(attrs: seq<string>) {
    |attrs| == 1 && attrs[0] == "*"
  }

  /** `s.trim() || null`. */
  function Projected(s: string): (v: Value)
    ensures v == Null || (v.Str? && v.s != "" && !IsJsSpace(v.s[0]) && !IsJsSpace(v.s[|v.s| - 1]))
    ensures v == Null <==> forall k :: 0 <= k < |s| ==> IsJsSpace(s[k])
  {
    var t := Trim(s);
    if t == "" then Null else Str(t)
  }

  /** `item[attr].trim() || null`; trim throws on a missing, null or array value. */
  function ExtractValue(item: Record, attr: string): (v: Result<Value>)
    ensures v.Success? <==> attr in item && item[attr].Str?
    ensures v.Success? ==> v.value == Projected(item[attr].s)
  {
    match Attr(item, attr)
    case Some(Str(s)) => Success(Projected(s))
    case None => Failure("Cannot read properties of undefined (reading 'trim')")
    case Some(_) => Failure("trim is not a function")
  }

  /** Every configured name is present in `item` with a text value. */
  predicate Extractable(item: Record, attrs: seq<string>) {
    forall a :: a in attrs ==> a in item && item[a].Str?
  }

  /** The forEach over the configured names: the first name whose value cannot be trimmed throws. */
  function ExtractRecord(item: Record, attrs: seq<string>): (r: Result<Record>)
    ensures r.Success? <==> Extractable(item, attrs)
    ensures r.Success? ==> r.value.Keys == set a | a in attrs
    ensures r.Success? ==> forall a :: a in attrs ==> r.value[a] == Projected(item[a].s)
  {
    if attrs == [] then Success(map[])
    else
      var init := attrs[..|attrs| - 1];
      var attr := attrs[|attrs| - 1];
      assert forall a :: a in attrs <==> a in init || a == attr;
      match ExtractRecord(item, init)
      case Failure(e) => Failure(e)
      case Success(extracted) =>
        match ExtractValue(item, attr)
        case Failure(e) => Failure(e)
        case Success(v) => Success(extracted[attr := v])
  }

  /** `data.map(...)`, record by record: the first record that throws aborts the whole extraction. */
  function ExtractAll(data: seq<Record>, attrs: seq<string>): (r: Result<seq<Record>>)
    ensures r.Success? <==> forall i :: 0 <= i < |data| ==> Extractable(data[i], attrs)
    ensures r.Success? ==> |r.value| == |data|
    ensures r.Success? ==> forall i :: 0 <= i < |data| ==> Success(r.value[i]) == ExtractRecord(data[i], attrs)
  {
    if data == [] then Success([])
    else
      match ExtractRecord(data[0], attrs)
      case Failure(e) =>
        assert !Extractable(data[0], attrs);
        Failure(e)
      case Success(x) =>
        match ExtractAll(data[1..], attrs)
        case Failure(e) =>
          TailFails(data, attrs);
          Failure(e)
        case Success(xs) =>
          TailShift(data);
          Success([x] + xs)
  }

  /** A record of the tail that cannot be projected is one of the whole sequence. */
  lemma TailFails(data: seq<Record>, attrs: seq<string>)
    requires data != [] && exists i :: 0 <= i < |data[1..]| && !Extractable(data[1..][i], attrs)
    ensures exists i :: 0 <= i < |data| && !Extractable(data[i], attrs)
  {
    var j :| 0 <= j < |data[1..]| && !Extractable(data[1..][j], attrs);
    assert data[1 + j] == data[1..][j];
  }

  lemma TailShift(data: seq<Record>)
    requires data != []
    ensures forall i :: 1 <= i < |data| ==> data[i] == data[1..][i - 1]
  {
  }

  /**
   * extractAttributes: with the wildcard the records pass through; otherwise
   * every record is projected. Either way there are as many records out as in,
   * and extraction fails only for an explicit list with some record that does
   * not hold every configured name as text.
   */
  function ExtractAttributes(data: seq<Record>, attrs: seq<string>): (r: Result<seq<Record>>)
    ensures r.Success? ==> |r.value| == |data|
    ensures r.Failure? <==> !IsWildcard(attrs) && exists i :: 0 <= i < |data| && !Extractable(data[i], attrs)
  {
    if IsWildcard(attrs) then Success(data) else ExtractAll(data, attrs)
  }

  /** With the wildcard the records pass through unchanged. */
  lemma WildcardPassesThrough(data: seq<Record>)
    ensures ExtractAttributes(data, ["*"]) == Success(data)
  {
  }

  /**
   * With an explicit list, extraction succeeds exactly when every record holds
   * every configured name as text; then each output record has exactly the
   * configured names, with the trimmed value or null, and there are as many
   * output records as input records.
   */
  lemma ProjectionContract(data: seq<Record>, attrs: seq<string>)
    requires !IsWildcard(attrs)
    ensures ExtractAttributes(data, attrs).Success? <==>
      forall i, a :: 0 <= i < |data| && a in attrs ==> a in data[i] && data[i][a].Str?
    ensures ExtractAttributes(data, attrs).Success? ==>
      var out := ExtractAttributes(data, attrs).value;
      && |out| == |data|
      && (forall i :: 0 <= i < |out| ==> out[i].Keys == set a | a in attrs)
      && (forall i, a :: 0 <= i < |out| && a in attrs ==> out[i][a] == Projected(data[i][a].s))
  {
    if ExtractAttributes(data, attrs).Success? {
      var out := ExtractAttributes(data, attrs).value;
      forall i, a | 0 <= i < |out| && a in attrs
        ensures out[i][a] == Projected(data[i][a].s)
      {
        assert Success(out[i]) == ExtractRecord(data[i], attrs);
      }
    }
  }
}
