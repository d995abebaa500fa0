/** The cookie jar handed to the crawler: the loaded list of cookie objects
    folded into a name-to-value map. */
module Cookies {

  datatype Cookie = Cookie(name: string, value: string)

  /** The map after folding in `cookies` one at a time. */
  function CookieMap(cookies: seq<Cookie>): map<string, string>
    decreases |cookies|
  {
    if cookies == [] then map[]
    else
      var last := cookies[|cookies| - 1];
      CookieMap(cookies[..|cookies| - 1])[last.name := last.value]
  }

  /** Among the first `n` cookies, the last one named `name` carries `value`. */
  ghost predicate LastValueIs(cookies: seq<Cookie>, n: nat, name: string, value: string)
    requires n <= |cookies|
  {
    exists k | 0 <= k < n ::
      cookies[k].name == name && cookies[k].value == value &&
      forall j | k < j < n :: cookies[j].name != name
  }

  /** The map has a key for every cookie's name and no other, and a name that
      occurs more than once maps to the value of its last occurrence. */
  lemma {:induction false} CookieMapLastWins(cookies: seq<Cookie>)
    ensures forall k | 0 <= k < |cookies| :: cookies[k].name in CookieMap(cookies)
    ensures forall name | name in CookieMap(cookies) :: LastValueIs(cookies, |cookies|, name, CookieMap(cookies)[name])
    decreases |cookies|
  {
    if cookies != [] {
      var n := |cookies| - 1;
      var front := cookies[..n];
      var last := cookies[n];
      CookieMapLastWins(front);
      var before := CookieMap(front);
      forall k | 0 <= k < |cookies| ensures cookies[k].name in CookieMap(cookies) {
        if k < n { assert front[k] == cookies[k]; }
      }
      forall name | name in CookieMap(cookies)
        ensures LastValueIs(cookies, |cookies|, name, CookieMap(cookies)[name])
      {
        if name == last.name {
          assert LastValueIs(cookies, |cookies|, name, last.value);
        } else {
          var k :| 0 <= k < n && front[k].name == name && front[k].value == before[name] &&
            forall j | k < j < n :: front[j].name != name;
          assert cookies[k] == front[k];
          assert forall j | k < j < |cookies| :: cookies[j].name != name by {
            forall j | k < j < |cookies| ensures cookies[j].name != name {
              if j < n { assert cookies[j] == front[j]; }
            }
          }
        }
      }
    }
  }

  /** The source's loop: each cookie in turn sets its name's entry, so a later
      cookie with the same name overwrites an earlier one. */
  method BuildCookieMap(cookies: seq<Cookie>) returns (jar: map<string, string>)
    ensures jar == CookieMap(cookies)
  {
    jar := map[];
    var i := 0;
    while i < |cookies|
      invariant 0 <= i <= |cookies|
      invariant jar == CookieMap(cookies[..i])
    {
      var cookie := cookies[i];
      assert cookies[..i + 1][..i] == cookies[..i];
      jar := jar[cookie.name := cookie.value];
      i := i + 1;
    }
    assert cookies[..i] == cookies;
  }
}
