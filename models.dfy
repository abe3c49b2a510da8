/** The two stored document kinds, the referential integrity that ties them
    together, and the list and lookup operations the handlers perform on them. */
module Models {
  import opened Text

  /** A document identifier, in the string form it has inside a URL. */
  type Id = string

  /** An id the store hands out: like the hex text of an ObjectId, it is
      non-empty and has no '/'. */
  predicate IsSegment(id: Id) {
    id != [] && '/' !in id
  }

  /** A stored question: its trimmed title and the ids of its options, in the
      order they were added. */
  datatype Question = Question(title: string, options: seq<Id>)

  /** A stored option (the `Option` model): its trimmed text, its vote count
      (0 when created) and the id of the question that owns it. */
  datatype PollOption = PollOption(text: string, votes: nat, question: Id)

  predicate NoDuplicates(s: seq<Id>) {
    forall i, j :: 0 <= i < j < |s| ==> s[i] != s[j]
  }

  /** A value a `required`, `trim`med string field can hold: non-empty, with
      no whitespace at either end. */
  predicate Stored(s: string) {
    s != [] && !IsWhitespace(s[0]) && !IsWhitespace(s[|s| - 1])
  }

  /** The stored values are exactly the non-empty strings `trim` leaves as
      they are. */
  lemma StoredIffTrimmed(s: string)
    ensures Stored(s) <==> s != [] && Trim(s) == s
  {
    if Stored(s) {
      assert TrimStart(s) == s;
      assert TrimEnd(s) == s;
    }
  }

  /** Every id in a question's list names an option that points back at
      that question. */
  ghost predicate ListsResolve(qs: map<Id, Question>, os: map<Id, PollOption>) {
    forall q, o :: q in qs && o in qs[q].options ==> o in os && os[o].question == q
  }

  /** Every option is listed by the question it points at: no orphans. */
  ghost predicate NoOrphans(qs: map<Id, Question>, os: map<Id, PollOption>) {
    forall o :: o in os ==> os[o].question in qs && o in qs[os[o].question].options
  }

  /** Every question holds a stored title and a list without repeats. */
  ghost predicate QuestionsWellFormed(qs: map<Id, Question>) {
    forall q :: q in qs ==> NoDuplicates(qs[q].options) && Stored(qs[q].title)
  }

  /** Every option holds a stored text. */
  ghost predicate OptionsWellFormed(os: map<Id, PollOption>) {
    forall o :: o in os ==> Stored(os[o].text)
  }

  /** Referential integrity between the two collections, and well-formed
      documents in both. */
  ghost predicate Consistent(qs: map<Id, Question>, os: map<Id, PollOption>) {
    && ListsResolve(qs, os)
    && NoOrphans(qs, os)
    && QuestionsWellFormed(qs)
    && OptionsWellFormed(os)
  }

  /** No vote is lost between two states of the options collection: every
      option either keeps at least its votes, or had none and is gone. */
  ghost predicate VotesKept(os: map<Id, PollOption>, os': map<Id, PollOption>) {
    forall o :: o in os ==>
      if o in os' then os[o].votes <= os'[o].votes else os[o].votes == 0
  }

  /** Votes kept across one step and the next are kept across both, so no
      sequence of handlers loses a vote. */
  lemma VotesKeptTransitive(os: map<Id, PollOption>, os': map<Id, PollOption>, os'': map<Id, PollOption>)
    requires VotesKept(os, os') && VotesKept(os', os'')
    ensures VotesKept(os, os'')
  {
  }

  /** The ids a question's options list holds. */
  function Members(s: seq<Id>): (m: set<Id>)
    ensures forall x :: x in m <==> x in s
  {
    set i | 0 <= i < |s| :: s[i]
  }

  /** The store's `$pull`: removes every occurrence of `x` from the list and
      keeps the other elements. */
  function Pull(s: seq<Id>, x: Id): (r: seq<Id>)
    ensures forall y :: y in r <==> y in s && y != x
    ensures multiset(r) == multiset(s)[x := 0]
    ensures |r| == |s| - multiset(s)[x]
    ensures x !in s ==> r == s
  {
    if s == [] then []
    else
      assert s == [s[0]] + s[1..];
      var rest := Pull(s[1..], x);
      if s[0] == x then rest else [s[0]] + rest
  }

  /** Pulling from two halves and joining the results is pulling from the
      whole list: the ids kept stay in their list order. */
  lemma {:induction false} PullAppend(a: seq<Id>, b: seq<Id>, x: Id)
    ensures Pull(a + b, x) == Pull(a, x) + Pull(b, x)
  {
    if a == [] {
      assert a + b == b;
    } else {
      assert (a + b)[1..] == a[1..] + b;
      PullAppend(a[1..], b, x);
    }
  }

  lemma {:induction false} PullKeepsNoDuplicates(s: seq<Id>, x: Id)
    requires NoDuplicates(s)
    ensures NoDuplicates(Pull(s, x))
  {
    if s != [] {
      PullKeepsNoDuplicates(s[1..], x);
      var rest := Pull(s[1..], x);
      if s[0] != x {
        assert s[0] !in s[1..];
        assert s[0] !in rest;
        var r := [s[0]] + rest;
        forall i, j | 0 <= i < j < |r| ensures r[i] != r[j] {
          if i > 0 { assert r[i] == rest[i - 1] && r[j] == rest[j - 1]; }
          else { assert r[j] in rest; }
        }
      }
    }
  }

  /** `options.some((option) => option.votes > 0)` over the options found
      for the ids of `ids` (ids with no stored option are not found). */
  function HasVotes(ids: seq<Id>, os: map<Id, PollOption>): (b: bool)
    ensures b <==> exists i :: 0 <= i < |ids| && ids[i] in os && os[ids[i]].votes > 0
  {
    if ids == [] then false
    else (ids[0] in os && os[ids[0]].votes > 0) || HasVotes(ids[1..], os)
  }

  /** A bound on the length of the strings of a finite set. */
  ghost function LongestLength(s: set<Id>): (n: nat)
    ensures forall x :: x in s ==> |x| <= n
    decreases s
  {
    if s == {} then 0
    else
      var x :| x in s;
      var n := LongestLength(s - {x});
      if |x| > n then |x| else n
  }

  /** However many documents exist, an id none of them uses exists. */
  lemma FreshIdExists(used: set<Id>)
    ensures exists id: Id :: id !in used && IsSegment(id)
  {
    var id := seq(LongestLength(used) + 1, _ => 'a');
    assert id !in used && IsSegment(id);
  }
}
