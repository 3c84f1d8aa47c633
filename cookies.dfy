/** `getRequestCookieValue`: the value of the first request cookie with a given name. */
module Cookies {
  import opened Wrappers

  datatype Cookie = Cookie(name: string, value: string)

  /** The value of the first cookie named `name`, or None when no cookie has that name. */
  function FirstValue(cookies: seq<Cookie>, name: string): (r: Option<string>)
    ensures r.None? <==> forall k :: 0 <= k < |cookies| ==> cookies[k].name != name
    ensures r.Some? ==> exists k :: 0 <= k < |cookies| && cookies[k] == Cookie(name, r.value)
                                   && forall j :: 0 <= j < k ==> cookies[j].name != name
    decreases |cookies|
  {
    if cookies == [] then None
    else if cookies[0].name == name then Some(cookies[0].value)
    else
      var r := FirstValue(cookies[1..], name);
      assert forall k :: 0 < k < |cookies| ==> cookies[k] == cookies[1..][k - 1];
      r
  }

  /** `getRequestCookieValue`: scans the cookies and returns at the first name match. */
  method GetRequestCookieValue(cookies: seq<Cookie>, name: string) returns (r: Option<string>)
    ensures r == FirstValue(cookies, name)
  {
    var i := 0;
    while i < |cookies|
      invariant 0 <= i <= |cookies|
      invariant FirstValue(cookies[i..], name) == FirstValue(cookies, name)
    {
      if cookies[i].name == name {
        return Some(cookies[i].value);
      }
      assert cookies[i..][1..] == cookies[i + 1..];
      i := i + 1;
    }
    return None;
  }

  /** Cookies after the first match do not change the answer. */
  lemma {:induction false} LaterCookiesIgnored(cookies: seq<Cookie>, rest: seq<Cookie>, name: string)
    requires exists k :: 0 <= k < |cookies| && cookies[k].name == name
    ensures FirstValue(cookies + rest, name) == FirstValue(cookies, name)
    decreases |cookies|
  {
    if cookies[0].name != name {
      assert (cookies + rest)[1..] == cookies[1..] + rest;
      var k :| 0 <= k < |cookies| && cookies[k].name == name;
      assert cookies[1..][k - 1] == cookies[k];
      LaterCookiesIgnored(cookies[1..], rest, name);
    }
  }
}
