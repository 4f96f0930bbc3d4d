/**
  The two pure steps of the sign-in form: refusing to build a request when a
  field is empty, and stripping the JSON quotes from the returned token with
  `token.replace(/^"|"$/g, '')`.
 */
module LoginFlow {

  const EmptyFieldsMessage: string := "Please fill in all fields"

  /** What the form does with its two fields: refuse with a message, or go on to sign in. */
  datatype SignInStep = Rejected(message: string) | SignIn(user: string, password: string)

  /**
    `!usernameOrEmail || !password`: a form field's value is a string, and
    only the empty string is falsy, so a field of spaces is accepted.
   */
  function CheckFields(user: string, password: string): (r: SignInStep)
    ensures r.Rejected? <==> user == "" || password == ""
    ensures r.Rejected? ==> r.message == EmptyFieldsMessage
    ensures r.SignIn? ==> r.user == user && r.password == password
  {
    if user == "" || password == "" then Rejected(EmptyFieldsMessage)
    else SignIn(user, password)
  }

  /** A field of white space alone still goes on to sign in. */
  lemma BlankFieldsAreNotEmpty(user: string, password: string)
    requires |user| > 0 && |password| > 0
    requires forall k :: 0 <= k < |user| ==> user[k] == ' '
    ensures CheckFields(user, password) == SignIn(user, password)
  {
  }

  /**
    Whether the pattern `^"|"$` matches at index `p` of `t`: a quote that is
    the first character, or a quote that is the last one.
   */
  predicate MatchesAt(t: string, p: nat)
    requires p < |t|
  {
    t[p] == '"' && (p == 0 || p == |t| - 1)
  }

  /**
    The global replace as the regular expression engine runs it from index
    `p`: every alternative of the pattern is one character long, so the scan
    either deletes the character at `p` or keeps it, then moves on by one.
   */
  function ReplaceFrom(t: string, p: nat): (r: string)
    requires p <= |t|
    ensures |t| - p - (if p == 0 then 2 else 1) <= |r| <= |t| - p
    decreases |t| - p
  {
    if p == |t| then []
    else if MatchesAt(t, p) then ReplaceFrom(t, p + 1)
    else [t[p]] + ReplaceFrom(t, p + 1)
  }

  /** The token with one leading quote removed, then one trailing quote of what is left. */
  function CleanToken(t: string): (r: string)
    ensures |t| - 2 <= |r| <= |t|
    ensures var i := if |t| > 0 && t[0] == '"' then 1 else 0;
      exists j :: i <= j <= |t| && |t| - 1 <= j && r == t[i..j]
  {
    var i := if |t| > 0 && t[0] == '"' then 1 else 0;
    var u := t[i..];
    if |u| > 0 && u[|u| - 1] == '"' then
      assert u[..|u| - 1] == t[i..|t| - 1];
      u[..|u| - 1]
    else
      assert u == t[i..|t|];
      u
  }

  /** Past index 0 only the closing quote can match. */
  lemma {:induction false} ReplaceFromPastStart(t: string, p: nat)
    requires 1 <= p <= |t|
    ensures ReplaceFrom(t, p) == if p <= |t| - 1 && t[|t| - 1] == '"' then t[p..|t| - 1] else t[p..]
    decreases |t| - p
  {
    if p < |t| {
      ReplaceFromPastStart(t, p + 1);
      if MatchesAt(t, p) {
        assert p == |t| - 1;
      } else {
        assert t[p..] == [t[p]] + t[p + 1..];
        if p < |t| - 1 && t[|t| - 1] == '"' {
          assert t[p..|t| - 1] == [t[p]] + t[p + 1..|t| - 1];
        }
      }
    }
  }

  /** `CleanToken` computes exactly what the global replace of `^"|"$` leaves. */
  lemma CleanTokenIsRegexReplace(t: string)
    ensures CleanToken(t) == ReplaceFrom(t, 0)
  {
    if |t| > 0 {
      ReplaceFromPastStart(t, 1);
      if !MatchesAt(t, 0) {
        assert t == [t[0]] + t[1..];
        if |t| > 1 && t[|t| - 1] == '"' {
          assert t[..|t| - 1] == [t[0]] + t[1..|t| - 1];
        }
      }
    }
  }

  /** A token with no quote at either end is returned unchanged. */
  lemma CleanTokenKeepsUnquoted(t: string)
    requires |t| == 0 || (t[0] != '"' && t[|t| - 1] != '"')
    ensures CleanToken(t) == t
  {
  }

  /** A token quoted at both ends becomes exactly its inner text, inner quotes included. */
  lemma CleanTokenStripsQuotes(t: string)
    requires |t| >= 2 && t[0] == '"' && t[|t| - 1] == '"'
    ensures CleanToken(t) == t[1..|t| - 1]
  {
  }

  /** Quoting any text and cleaning it gives the text back. */
  lemma CleanTokenUnquotes(s: string)
    ensures CleanToken("\"" + s + "\"") == s
  {
    var t := "\"" + s + "\"";
    CleanTokenStripsQuotes(t);
    assert t[1..|t| - 1] == s;
  }

  /** A lone quote and an empty pair of quotes both clean to the empty token. */
  lemma CleanTokenOfQuotesOnly()
    ensures CleanToken("\"") == ""
    ensures CleanToken("\"\"") == ""
  {
  }

  /** Cleaning is not idempotent: doubled quotes lose one pair per cleaning. */
  lemma CleanTokenNotIdempotent()
    ensures CleanToken("\"\"a\"\"") == "\"a\""
    ensures CleanToken(CleanToken("\"\"a\"\"")) == "a"
  {
    var t := "\"\"a\"\"";
    CleanTokenStripsQuotes(t);
    assert t[1..|t| - 1] == "\"a\"";
    CleanTokenStripsQuotes("\"a\"");
    assert "\"a\""[1..2] == "a";
  }
}
