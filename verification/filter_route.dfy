/** The filter proxy route of the web frontend (`GET /api/filter`): it reads
    the three filter parameters of the incoming request, forwards those that
    are not blank to the backend, in a fixed order and with their original
    (untrimmed) values, and builds the backend URL, which carries a query
    only when something was forwarded. */
module FilterRoute {
  import opened Wrappers

  /** A query parameter: name and (decoded) value. */
  type Param = (string, string)

  /** `URLSearchParams.get`: the value of the first entry with that name,
      `null` when there is none. */
  function Get(params: seq<Param>, name: string): (r: Option<string>)
    ensures r.None? <==> forall i :: 0 <= i < |params| ==> params[i].0 != name
    ensures r.Some? ==> exists i :: 0 <= i < |params| && params[i] == (name, r.value)
                         && forall j :: 0 <= j < i ==> params[j].0 != name
  {
    if params == [] then None
    else if params[0].0 == name then Some(params[0].1)
    else
      var r := Get(params[1..], name);
      assert r.Some? ==> exists i :: 0 <= i < |params| - 1 && params[1..][i] == (name, r.value)
                          && forall j :: 0 <= j < i ==> params[1..][j].0 != name;
      r
  }

  // ---------------------------------------------------------------------
  // String.prototype.trim
  // ---------------------------------------------------------------------

  /** The characters `trim` removes: the WhiteSpace and LineTerminator code
      points of ECMAScript (section 12.2 and 12.3 of ECMA-262). */
  predicate IsTrimmable(c: char) {
    || c == '\t' || c == '\n' || c == '\U{000B}' || c == '\U{000C}' || c == '\r'
    || c == ' ' || c == '\U{00A0}' || c == '\U{1680}'
    || ('\U{2000}' <= c <= '\U{200A}')
    || c == '\U{2028}' || c == '\U{2029}' || c == '\U{202F}' || c == '\U{205F}'
    || c == '\U{3000}' || c == '\U{FEFF}'
  }

  /** A string made of trimmable characters only (the empty one included). */
  predicate IsBlank(s: string) {
    forall i :: 0 <= i < |s| ==> IsTrimmable(s[i])
  }

  function TrimStart(s: string): string {
    if s != [] && IsTrimmable(s[0]) then TrimStart(s[1..]) else s
  }

  function TrimEnd(s: string): string {
    if s != [] && IsTrimmable(s[|s| - 1]) then TrimEnd(s[..|s| - 1]) else s
  }

  /** `String.prototype.trim`. */
  function Trim(s: string): string {
    TrimEnd(TrimStart(s))
  }

  lemma {:induction false} TrimStartKeepsBlankness(s: string)
    ensures IsBlank(TrimStart(s)) <==> IsBlank(s)
    ensures IsBlank(s) ==> TrimStart(s) == ""
  {
    if s != [] && IsTrimmable(s[0]) {
      TrimStartKeepsBlankness(s[1..]);
      assert IsBlank(s) <==> IsBlank(s[1..]) by {
        assert forall i :: 0 < i < |s| ==> s[i] == s[1..][i - 1];
      }
    } else if s != [] {
      assert !IsTrimmable(s[0]);
    }
  }

  lemma {:induction false} TrimEndEmptyIffBlank(s: string)
    ensures TrimEnd(s) == "" <==> IsBlank(s)
  {
    if s != [] && IsTrimmable(s[|s| - 1]) {
      var init := s[..|s| - 1];
      TrimEndEmptyIffBlank(init);
      assert IsBlank(s) <==> IsBlank(init) by {
        assert forall i :: 0 <= i < |init| ==> s[i] == init[i];
      }
    } else if s != [] {
      assert !IsTrimmable(s[|s| - 1]);
    }
  }

  /** `trim()` yields "" exactly for a blank string. */
  lemma TrimEmptyIffBlank(s: string)
    ensures Trim(s) == "" <==> IsBlank(s)
  {
    TrimStartKeepsBlankness(s);
    TrimEndEmptyIffBlank(TrimStart(s));
  }

  // ---------------------------------------------------------------------
  // URLSearchParams
  // ---------------------------------------------------------------------

  /** One serialized entry, `name=value`, both percent-encoded by `encode`
      (the application/x-www-form-urlencoded serializer, left abstract). */
  function SerializeParam(p: Param, encode: string -> string): string {
    encode(p.0) + "=" + encode(p.1)
  }

  /** `URLSearchParams.toString`: the serialized entries joined by `&`. */
  function Serialize(params: seq<Param>, encode: string -> string): (r: string)
    ensures r == "" <==> params == []
  {
    if params == [] then ""
    else if |params| == 1 then SerializeParam(params[0], encode)
    else SerializeParam(params[0], encode) + "&" + Serialize(params[1..], encode)
  }

  /** The mutable query-parameter list the route appends to. */
  class SearchParams {
    var entries: seq<Param>

    constructor ()
      ensures entries == []
    {
      entries := [];
    }

    /** `append`: adds an entry at the end, even when the name is already
        there. */
    method Append(name: string, value: string)
      modifies this
      ensures entries == old(entries) + [(name, value)]
    {
      entries := entries + [(name, value)];
    }

    /** `toString`: empty exactly when nothing was appended. */
    function ToString(encode: string -> string): (r: string)
      reads this
      ensures r == "" <==> entries == []
    {
      Serialize(entries, encode)
    }
  }

  // ---------------------------------------------------------------------
  // The route
  // ---------------------------------------------------------------------

  /** `value && value.trim()`: present, not "", and not blank once trimmed. */
  predicate IsForwardable(value: Option<string>) {
    value.Some? && value.value != "" && Trim(value.value) != ""
  }

  /** The entry a single candidate contributes. */
  function Entry(name: string, value: Option<string>): seq<Param> {
    if IsForwardable(value) then [(name, value.value)] else []
  }

  /** The parameters to forward: the candidates, in their order, that are
      forwardable, each with its original value. */
  function Forwardable(candidates: seq<(string, Option<string>)>): seq<Param> {
    if candidates == [] then []
    else Entry(candidates[0].0, candidates[0].1) + Forwardable(candidates[1..])
  }

  /** The forwarded parameters, given the values the request carries. */
  function Forwarded(paymentStatus: Option<string>, startDate: Option<string>, endDate: Option<string>): seq<Param> {
    Forwardable([("paymentStatus", paymentStatus), ("startDate", startDate), ("endDate", endDate)])
  }

  /** The three candidates, one after the other. */
  lemma {:induction false} ForwardedAsThree(paymentStatus: Option<string>, startDate: Option<string>, endDate: Option<string>)
    ensures Forwarded(paymentStatus, startDate, endDate)
         == Entry("paymentStatus", paymentStatus) + Entry("startDate", startDate) + Entry("endDate", endDate)
  {
    var c := [("paymentStatus", paymentStatus), ("startDate", startDate), ("endDate", endDate)];
    assert c[1..] == [("startDate", startDate), ("endDate", endDate)];
    assert c[1..][1..] == [("endDate", endDate)];
    assert c[1..][1..][1..] == [];
    calc {
      Forwardable(c);
      Entry("paymentStatus", paymentStatus) + Forwardable(c[1..]);
      Entry("paymentStatus", paymentStatus) + (Entry("startDate", startDate) + Forwardable(c[1..][1..]));
      Entry("paymentStatus", paymentStatus) + (Entry("startDate", startDate) + (Entry("endDate", endDate) + []));
    }
  }

  /** The position of a parameter name in the fixed forwarding order. */
  function Rank(name: string): int {
    if name == "paymentStatus" then 0 else if name == "startDate" then 1 else 2
  }

  /** A parameter is forwarded exactly when the request carries it with a
      value that is not blank, and then with that value, untrimmed. */
  lemma ForwardedMembers(paymentStatus: Option<string>, startDate: Option<string>, endDate: Option<string>,
                         name: string, value: string)
    ensures (name, value) in Forwarded(paymentStatus, startDate, endDate) <==>
      || (name == "paymentStatus" && paymentStatus == Some(value) && !IsBlank(value))
      || (name == "startDate" && startDate == Some(value) && !IsBlank(value))
      || (name == "endDate" && endDate == Some(value) && !IsBlank(value))
  {
    ForwardedAsThree(paymentStatus, startDate, endDate);
    TrimEmptyIffBlank(value);
    if paymentStatus.Some? { TrimEmptyIffBlank(paymentStatus.value); }
    if startDate.Some? { TrimEmptyIffBlank(startDate.value); }
    if endDate.Some? { TrimEmptyIffBlank(endDate.value); }
  }

  /** Forwarded parameters come in the order paymentStatus, startDate,
      endDate, each name at most once. */
  lemma ForwardedInFixedOrder(paymentStatus: Option<string>, startDate: Option<string>, endDate: Option<string>)
    ensures var f := Forwarded(paymentStatus, startDate, endDate);
      && |f| <= 3
      && (forall i, j :: 0 <= i < j < |f| ==> Rank(f[i].0) < Rank(f[j].0))
      && (forall i, j :: 0 <= i < |f| && 0 <= j < |f| && f[i].0 == f[j].0 ==> i == j)
  {
    ForwardedAsThree(paymentStatus, startDate, endDate);
  }

  /** Nothing is forwarded exactly when each of the three parameters is
      absent or blank. */
  lemma NothingForwardedIffAllBlank(paymentStatus: Option<string>, startDate: Option<string>, endDate: Option<string>)
    ensures Forwarded(paymentStatus, startDate, endDate) == [] <==>
      && (paymentStatus.None? || IsBlank(paymentStatus.value))
      && (startDate.None? || IsBlank(startDate.value))
      && (endDate.None? || IsBlank(endDate.value))
  {
    if paymentStatus.Some? {
      ForwardedMembers(paymentStatus, startDate, endDate, "paymentStatus", paymentStatus.value);
    }
    if startDate.Some? {
      ForwardedMembers(paymentStatus, startDate, endDate, "startDate", startDate.value);
    }
    if endDate.Some? {
      ForwardedMembers(paymentStatus, startDate, endDate, "endDate", endDate.value);
    }
    var f := Forwarded(paymentStatus, startDate, endDate);
    if f != [] {
      ForwardedMembers(paymentStatus, startDate, endDate, f[0].0, f[0].1);
    }
  }

  /** The part of `GET` that builds the backend URL: the three parameters
      are read from the request, the forwardable ones appended in a fixed
      order, and `?query` is attached only when the query is not empty. */
  method FilterUrl(apiBaseUrl: string, request: seq<Param>, encode: string -> string) returns (url: string)
    ensures var forwarded := Forwarded(Get(request, "paymentStatus"), Get(request, "startDate"),
                                       Get(request, "endDate"));
      && (forwarded == [] ==> url == apiBaseUrl + "/filter")
      && (forwarded != [] ==> url == apiBaseUrl + "/filter?" + Serialize(forwarded, encode))
  {
    var startDate := Get(request, "startDate");
    var endDate := Get(request, "endDate");
    var paymentStatus := Get(request, "paymentStatus");

    var queryParams := new SearchParams();
    if IsForwardable(paymentStatus) {
      queryParams.Append("paymentStatus", paymentStatus.value);
    }
    if IsForwardable(startDate) {
      queryParams.Append("startDate", startDate.value);
    }
    if IsForwardable(endDate) {
      queryParams.Append("endDate", endDate.value);
    }

    ForwardedAsThree(paymentStatus, startDate, endDate);
    assert queryParams.entries == Forwarded(paymentStatus, startDate, endDate);

    var queryString := queryParams.ToString(encode);
    if queryString != "" {
      url := apiBaseUrl + "/filter?" + queryString;
    } else {
      url := apiBaseUrl + "/filter";
    }
  }
}
