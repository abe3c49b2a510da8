/** Each handler's change to the two collections keeps referential integrity. */
module Integrity {
  import opened Models

  /** A new question with an empty list breaks no reference. */
  lemma CreateQuestionKeepsConsistent(qs: map<Id, Question>, os: map<Id, PollOption>, id: Id, title: string)
    requires Consistent(qs, os)
    requires id !in qs && id !in os && Stored(title)
    ensures Consistent(qs[id := Question(title, [])], os)
  {
    var qs' := qs[id := Question(title, [])];
    forall q, o | q in qs' && o in qs'[q].options ensures o in os && os[o].question == q {
      assert q != id && qs'[q] == qs[q];
    }
    forall o | o in os ensures os[o].question in qs' && o in qs'[os[o].question].options {
      assert os[o].question != id;
    }
    forall q | q in qs' ensures NoDuplicates(qs'[q].options) && Stored(qs'[q].title) {
      if q != id { assert qs'[q] == qs[q]; }
    }
  }

  /** A new option whose id is appended to its question's list is listed by
      that question and points back at it. */
  lemma AddOptionKeepsConsistent(qs: map<Id, Question>, os: map<Id, PollOption>, qid: Id, oid: Id, text: string)
    requires Consistent(qs, os)
    requires qid in qs && oid !in qs && oid !in os && Stored(text)
    ensures Consistent(qs[qid := qs[qid].(options := qs[qid].options + [oid])],
                       os[oid := PollOption(text, 0, qid)])
  {
    var list := qs[qid].options + [oid];
    var qs' := qs[qid := qs[qid].(options := list)];
    var os' := os[oid := PollOption(text, 0, qid)];
    forall q, o | q in qs' && o in qs'[q].options ensures o in os' && os'[o].question == q {
      if q == qid {
        if o != oid { assert o in qs[qid].options; }
      } else {
        assert o in qs[q].options;
      }
    }
    forall o | o in os' ensures os'[o].question in qs' && o in qs'[os'[o].question].options {
      if o != oid {
        var p := os[o].question;
        assert o in qs[p].options;
        if p == qid { assert o in list; }
      }
    }
    assert oid !in qs[qid].options;
    forall q | q in qs' ensures NoDuplicates(qs'[q].options) && Stored(qs'[q].title) {
      if q == qid {
        var old_list := qs[qid].options;
        forall i, j | 0 <= i < j < |list| ensures list[i] != list[j] {
          if j < |old_list| { assert list[i] == old_list[i] && list[j] == old_list[j]; }
          else { assert list[i] in old_list; }
        }
      }
    }
  }

  /** Removing a question together with the options its list names leaves
      no list pointing at a removed option and no option without its
      question. */
  lemma DeleteQuestionKeepsConsistent(qs: map<Id, Question>, os: map<Id, PollOption>, id: Id)
    requires Consistent(qs, os)
    requires id in qs
    ensures Consistent(qs - {id}, os - Members(qs[id].options))
  {
    var gone := Members(qs[id].options);
    var qs', os' := qs - {id}, os - gone;
    forall q, o | q in qs' && o in qs'[q].options ensures o in os' && os'[o].question == q {
      assert o in qs[q].options && os[o].question == q != id;
      assert o !in qs[id].options;
    }
    forall o | o in os' ensures os'[o].question in qs' && o in qs'[os'[o].question].options {
      var p := os[o].question;
      assert o in qs[p].options;
    }
  }

  /** Replacing the owner's list of option `id` by a repeat-free list that
      holds exactly its other ids, and removing the option, leaves every
      other reference in place. */
  lemma UnlistKeepsConsistent(qs: map<Id, Question>, os: map<Id, PollOption>, id: Id, rest: seq<Id>)
    requires Consistent(qs, os)
    requires id in os && os[id].question in qs
    requires forall y :: y in rest <==> y in qs[os[id].question].options && y != id
    requires NoDuplicates(rest)
    ensures var p := os[id].question;
            Consistent(qs[p := qs[p].(options := rest)], os - {id})
  {
    var p := os[id].question;
    var qs' := qs[p := qs[p].(options := rest)];
    var os' := os - {id};
    forall q, o | q in qs' && o in qs'[q].options ensures o in os' && os'[o].question == q {
      if q == p {
        assert o in qs[p].options && o != id;
      } else {
        assert o in qs[q].options;
      }
    }
    forall o | o in os' ensures os'[o].question in qs' && o in qs'[os'[o].question].options {
      var q := os[o].question;
      assert o in qs[q].options;
      if q == p { assert o != id; }
    }
  }

  /** Pulling an option's id from its question's list and removing the
      option keeps referential integrity. */
  lemma DeleteOptionKeepsConsistent(qs: map<Id, Question>, os: map<Id, PollOption>, id: Id)
    requires Consistent(qs, os)
    requires id in os
    ensures var p := os[id].question;
            Consistent(qs[p := qs[p].(options := Pull(qs[p].options, id))], os - {id})
  {
    var p := os[id].question;
    PullKeepsNoDuplicates(qs[p].options, id);
    UnlistKeepsConsistent(qs, os, id, Pull(qs[p].options, id));
  }

  /** A vote changes no reference. */
  lemma AddVoteKeepsConsistent(qs: map<Id, Question>, os: map<Id, PollOption>, id: Id)
    requires Consistent(qs, os)
    requires id in os
    ensures Consistent(qs, os[id := os[id].(votes := os[id].votes + 1)])
  {
    var os' := os[id := os[id].(votes := os[id].votes + 1)];
    forall q, o | q in qs && o in qs[q].options ensures o in os' && os'[o].question == q {
    }
    forall o | o in os' ensures os'[o].question in qs && o in qs[os'[o].question].options {
    }
  }
}
