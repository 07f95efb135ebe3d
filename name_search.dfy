/** The search box shared by the clients page (`src/app/dashboard/clients/page.tsx`) and
    the staff page (`src/app/dashboard/staff/page.tsx`): a person matches when the query
    is empty or, ignoring case, occurs in "first last" or in the email. */
module NameSearch {
  import Text

  /** The `matchesSearch` expression of both pages. */
  predicate Matches(query: string, firstName: string, lastName: string, email: string) {
    query == ""
    || Text.Contains(Text.Lower(firstName + " " + lastName), Text.Lower(query))
    || Text.Contains(Text.Lower(email), Text.Lower(query))
  }

  /** Lowering twice is lowering once. */
  lemma LowerIdempotent(s: string)
    ensures Text.Lower(Text.Lower(s)) == Text.Lower(s)
  {
    assert forall c :: Text.LowerChar(Text.LowerChar(c)) == Text.LowerChar(c);
  }

  /** The search ignores the case of the query: a query and its lower-case form find the
      same people. */
  lemma CaseInsensitive(query: string, firstName: string, lastName: string, email: string)
    ensures Matches(query, firstName, lastName, email) <==> Matches(Text.Lower(query), firstName, lastName, email)
  {
    LowerIdempotent(query);
    assert query == "" <==> Text.Lower(query) == "";
  }

  /** A query that occurs in the name, at any position and in any case, matches. */
  lemma {:induction false} NameOccurrenceMatches(query: string, firstName: string, lastName: string, email: string, i: nat)
    requires i + |query| <= |firstName + " " + lastName|
    requires Text.Lower(query) == Text.Lower((firstName + " " + lastName)[i..i + |query|])
    ensures Matches(query, firstName, lastName, email)
  {
    var name := Text.Lower(firstName + " " + lastName);
    assert Text.Lower(query) == name[i..i + |query|];
    Text.ContainsAtIndex(name, Text.Lower(query), i);
  }

  /** A query that occurs in the email, at any position and in any case, matches. */
  lemma {:induction false} EmailOccurrenceMatches(query: string, firstName: string, lastName: string, email: string, i: nat)
    requires i + |query| <= |email|
    requires Text.Lower(query) == Text.Lower(email[i..i + |query|])
    ensures Matches(query, firstName, lastName, email)
  {
    var e := Text.Lower(email);
    assert Text.Lower(query) == e[i..i + |query|];
    Text.ContainsAtIndex(e, Text.Lower(query), i);
  }

  /** `sub` occurs in `s` at index `i`. */
  predicate OccursAt(s: string, sub: string, i: nat) {
    i + |sub| <= |s| && s[i..i + |sub|] == sub
  }

  /** Conversely, a non-empty query that matches occurs, ignoring case, in the name or in
      the email. */
  lemma MatchOccurs(query: string, firstName: string, lastName: string, email: string)
    requires query != "" && Matches(query, firstName, lastName, email)
    ensures (exists i: nat :: OccursAt(Text.Lower(firstName + " " + lastName), Text.Lower(query), i))
            || (exists i: nat :: OccursAt(Text.Lower(email), Text.Lower(query), i))
  {
    var name := Text.Lower(firstName + " " + lastName);
    var q := Text.Lower(query);
    if Text.Contains(name, q) {
      var i := Text.IndexOfContains(name, q);
      assert OccursAt(name, q, i);
    } else {
      var e := Text.Lower(email);
      var i := Text.IndexOfContains(e, q);
      assert OccursAt(e, q, i);
    }
  }
}
