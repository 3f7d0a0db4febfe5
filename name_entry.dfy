/**
 * The accept/reject decision of handleContinue in src/views/screens/NameScreen.js:
 * a name whose trim() is empty is refused with an alert; any other name goes
 * on to "MainTabs", exactly as typed.
 */
module NameEntry {
  /** ECMAScript WhiteSpace and LineTerminator code points: what String.prototype.trim removes. */
  predicate IsJsWhitespace(c: char) {
    var n := c as int;
    || 0x09 <= n <= 0x0D                      // tab, line feed, vertical tab, form feed, carriage return
    || n == 0x20 || n == 0xA0 || n == 0x1680  // space, no-break space, ogham space mark
    || 0x2000 <= n <= 0x200A                  // en quad .. hair space
    || n == 0x2028 || n == 0x2029             // line and paragraph separators
    || n == 0x202F || n == 0x205F || n == 0x3000
    || n == 0xFEFF                            // byte order mark
  }

  predicate AllWhitespace(s: string) {
    forall i :: 0 <= i < |s| ==> IsJsWhitespace(s[i])
  }

  function TrimStart(s: string): (r: string)
    ensures |r| <= |s| && r == s[|s| - |r|..]
    ensures r == [] || !IsJsWhitespace(r[0])
  {
    if s != [] && IsJsWhitespace(s[0]) then TrimStart(s[1..]) else s
  }

  function TrimEnd(s: string): (r: string)
    ensures |r| <= |s| && r == s[..|r|]
    ensures r == [] || !IsJsWhitespace(r[|r| - 1])
  {
    if s != [] && IsJsWhitespace(s[|s| - 1]) then TrimEnd(s[..|s| - 1]) else s
  }

  /** What TrimStart drops from the front is white space. */
  lemma {:induction false} TrimStartDropsWhitespace(s: string)
    ensures AllWhitespace(s[..|s| - |TrimStart(s)|])
  {
    if s != [] && IsJsWhitespace(s[0]) {
      TrimStartDropsWhitespace(s[1..]);
      forall i | 0 <= i < |s| - |TrimStart(s)|
        ensures IsJsWhitespace(s[i])
      {
        if i > 0 {
          assert s[i] == s[1..][i - 1];
        }
      }
    }
  }

  /** What TrimEnd drops from the back is white space. */
  lemma {:induction false} TrimEndDropsWhitespace(s: string)
    ensures AllWhitespace(s[|TrimEnd(s)|..])
  {
    if s != [] && IsJsWhitespace(s[|s| - 1]) {
      var front := s[..|s| - 1];
      TrimEndDropsWhitespace(front);
      forall i | |TrimEnd(s)| <= i < |s|
        ensures IsJsWhitespace(s[i])
      {
        if i < |s| - 1 {
          assert s[i] == front[i];
        }
      }
    }
  }

  /**
   * String.prototype.trim: the slice s[i..j] left after removing the white
   * space before i and after j; it neither starts nor ends with white space.
   */
  function Trim(s: string): (r: string)
    ensures |r| <= |s|
    ensures r == [] || (!IsJsWhitespace(r[0]) && !IsJsWhitespace(r[|r| - 1]))
    ensures exists i, j :: 0 <= i <= j <= |s| && r == s[i..j] && AllWhitespace(s[..i]) && AllWhitespace(s[j..])
  {
    var t := TrimStart(s);
    var r := TrimEnd(t);
    assert r != [] ==> r[0] == t[0];
    var i := |s| - |t|;
    var j := i + |r|;
    TrimStartDropsWhitespace(s);
    TrimEndDropsWhitespace(t);
    assert r == s[i..j] && s[j..] == t[|r|..];
    assert AllWhitespace(s[..i]) && AllWhitespace(s[j..]);
    r
  }

  datatype Platform = Web | Native
  datatype AlertChannel = WindowAlert | NativeAlert

  datatype Outcome =
    | Rejected(channel: AlertChannel, message: string)
    | NavigateTo(route: string, username: string)

  /** handleContinue on the typed name, for the platform the app runs on. */
  function HandleContinue(username: string, platform: Platform): (r: Outcome)
    ensures r.Rejected? <==> AllWhitespace(username)
    ensures r.Rejected? ==> r.message == "Please enter your name" && (r.channel == WindowAlert <==> platform == Web)
    ensures r.NavigateTo? ==> r.route == "MainTabs" && r.username == username
  {
    TrimEmptyIffBlank(username);
    if Trim(username) == [] then
      Rejected(if platform == Web then WindowAlert else NativeAlert, "Please enter your name")
    else
      NavigateTo("MainTabs", username)
  }

  lemma {:induction false} TrimStartEmpty(s: string)
    ensures TrimStart(s) == [] <==> AllWhitespace(s)
  {
    if s != [] && IsJsWhitespace(s[0]) {
      TrimStartEmpty(s[1..]);
      assert AllWhitespace(s) <==> AllWhitespace(s[1..]) by {
        assert forall i :: 1 <= i < |s| ==> s[i] == s[1..][i - 1];
      }
    }
  }

  lemma {:induction false} TrimEndKeepsNonEmpty(s: string)
    requires s != [] && !IsJsWhitespace(s[0])
    ensures TrimEnd(s) != []
  {
    if IsJsWhitespace(s[|s| - 1]) {
      TrimEndKeepsNonEmpty(s[..|s| - 1]);
    }
  }

  /** trim() is empty exactly when every character is white space (the empty name included). */
  lemma TrimEmptyIffBlank(s: string)
    ensures Trim(s) == [] <==> AllWhitespace(s)
  {
    TrimStartEmpty(s);
    if TrimStart(s) != [] {
      TrimEndKeepsNonEmpty(TrimStart(s));
    }
  }

  /**
   * The decision: blank names (empty or white space only) are refused, any name
   * with a visible character navigates to "MainTabs" carrying the untrimmed name,
   * and the platform only picks how the alert is shown.
   */
  lemma ContinueDecision(username: string, platform: Platform, other: Platform)
    ensures HandleContinue(username, platform).Rejected? <==> AllWhitespace(username)
    ensures !AllWhitespace(username) ==> HandleContinue(username, platform) == NavigateTo("MainTabs", username)
    ensures HandleContinue(username, platform).Rejected? == HandleContinue(username, other).Rejected?
    ensures HandleContinue(username, platform).NavigateTo? ==> HandleContinue(username, platform) == HandleContinue(username, other)
  {
    TrimEmptyIffBlank(username);
  }
}
