/** The poll store and its six request handlers: `createQuestion`,
    `getQuestion`, `deleteQuestion` and `addOption` (the question
    controller), `deleteOption` and `addVote` (the option controller). Each
    handler runs as one atomic step over the two collections. */
module Polls {
  import opened Text
  import opened Results
  import opened Models
  import opened Integrity
  import opened Format

  /** The check `!field || field.trim() === ""` that rejects a body field. */
  function Missing(field: Option<string>): (b: bool)
    ensures b <==> field.None? || AllWhitespace(field.value)
  {
    field.None? || field.value == "" || Trim(field.value) == ""
  }

  /** The document store: the Questions and Options collections, by id. */
  class PollStore {
    var questions: map<Id, Question>
    var options: map<Id, PollOption>

    ghost predicate Valid()
      reads this
    {
      Consistent(questions, options)
    }

    constructor ()
      ensures Valid() && questions == map[] && options == map[]
    {
      questions := map[];
      options := map[];
    }

    /** `POST /questions/create`: stores a question with the trimmed title
        and no options, under an id no document uses. */
    method CreateQuestion(title: Option<string>) returns (r: Result<(Id, Question)>)
      requires Valid()
      modifies this
      ensures Valid() && VotesKept(old(options), options)
      ensures r.Ok? <==> !Missing(title)
      ensures r.Err? ==> r.error == BadRequest("Question title is required") && unchanged(this)
      ensures r.Ok? ==>
                var id := r.value.0;
                && id !in old(questions) && id !in old(options) && IsSegment(id)
                && r.value.1 == Question(Trim(title.value), [])
                && questions == old(questions)[id := r.value.1]
                && options == old(options)
    {
      if Missing(title) {
        return Err(BadRequest("Question title is required"));
      }
      FreshIdExists(questions.Keys + options.Keys);
      var id :| id !in questions.Keys + options.Keys && IsSegment(id);
      var question := Question(Trim(title.value), []);
      CreateQuestionKeepsConsistent(questions, options, id, question.title);
      questions := questions[id := question];
      r := Ok((id, question));
    }

    /** `GET /questions/:id`: the question with each listed option's text,
        votes and vote link, in list order. `baseUrl` is the request's
        origin followed by the API prefix. */
    function GetQuestion(id: Id, baseUrl: string): (r: Result<QuestionView>)
      reads this
      ensures id !in questions ==> r == Err(NotFound("Question not found"))
      ensures id in questions ==> r.Ok? && r.value.id == id && r.value.title == questions[id].title
      ensures id in questions && Valid() ==>
                var ids := questions[id].options;
                && |r.value.options| == |ids|
                && forall i :: 0 <= i < |ids| ==>
                     r.value.options[i] == OptionView(ids[i], options[ids[i]].text, options[ids[i]].votes,
                                                      baseUrl + "/options/" + ids[i] + "/add_vote")
    {
      if id !in questions then Err(NotFound("Question not found"))
      else
        var question := questions[id];
        Ok(QuestionView(id, question.title, OptionViews(question.options, options, baseUrl)))
    }

    /** `DELETE /questions/:id/delete`: refused while any listed option has
        votes; otherwise removes the listed options, then the question. */
    method DeleteQuestion(id: Id) returns (r: Result<()>)
      requires Valid()
      modifies this
      ensures Valid() && VotesKept(old(options), options)
      ensures id !in old(questions) ==> r == Err(NotFound("Question not found")) && unchanged(this)
      ensures id in old(questions) && HasVotes(old(questions)[id].options, old(options)) ==>
                r == Err(BadRequest("Cannot delete question with votes")) && unchanged(this)
      ensures r.Ok? <==> id in old(questions) && !HasVotes(old(questions)[id].options, old(options))
      ensures r.Ok? ==>
                && questions == old(questions) - {id}
                && options == old(options) - Members(old(questions)[id].options)
    {
      if id !in questions {
        return Err(NotFound("Question not found"));
      }
      var question := questions[id];
      if HasVotes(question.options, options) {
        return Err(BadRequest("Cannot delete question with votes"));
      }
      DeleteQuestionKeepsConsistent(questions, options, id);
      options := options - Members(question.options);
      questions := questions - {id};
      r := Ok(());
    }

    /** `POST /questions/:id/options/create`: stores an option with the
        trimmed text and no votes, pointing at the question, and appends its
        id to the question's list. */
    method AddOption(qid: Id, text: Option<string>) returns (r: Result<(Id, PollOption)>)
      requires Valid()
      modifies this
      ensures Valid() && VotesKept(old(options), options)
      ensures qid !in old(questions) ==> r == Err(NotFound("Question not found")) && unchanged(this)
      ensures qid in old(questions) && Missing(text) ==>
                r == Err(BadRequest("Option text is required")) && unchanged(this)
      ensures r.Ok? <==> qid in old(questions) && !Missing(text)
      ensures r.Ok? ==>
                var oid := r.value.0;
                && oid !in old(questions) && oid !in old(options) && IsSegment(oid)
                && r.value.1 == PollOption(Trim(text.value), 0, qid)
                && options == old(options)[oid := r.value.1]
                && questions == old(questions)[qid := old(questions)[qid].(options := old(questions)[qid].options + [oid])]
    {
      if qid !in questions {
        return Err(NotFound("Question not found"));
      }
      if Missing(text) {
        return Err(BadRequest("Option text is required"));
      }
      FreshIdExists(questions.Keys + options.Keys);
      var oid :| oid !in questions.Keys + options.Keys && IsSegment(oid);
      var option := PollOption(Trim(text.value), 0, qid);
      AddOptionKeepsConsistent(questions, options, qid, oid, option.text);
      options := options[oid := option];
      var question := questions[qid];
      questions := questions[qid := question.(options := question.options + [oid])];
      r := Ok((oid, option));
    }

    /** `DELETE /options/:id/delete`: refused while the option has votes;
        otherwise pulls its id from its question's list, then removes it. */
    method DeleteOption(id: Id) returns (r: Result<()>)
      requires Valid()
      modifies this
      ensures Valid() && VotesKept(old(options), options)
      ensures id !in old(options) ==> r == Err(NotFound("Option not found")) && unchanged(this)
      ensures id in old(options) && old(options)[id].votes > 0 ==>
                r == Err(BadRequest("Cannot delete option with votes")) && unchanged(this)
      ensures r.Ok? <==> id in old(options) && old(options)[id].votes == 0
      ensures r.Ok? ==>
                var p := old(options)[id].question;
                && questions == old(questions)[p := old(questions)[p].(options := Pull(old(questions)[p].options, id))]
                && options == old(options) - {id}
                && forall q :: q in questions ==> id !in questions[q].options
    {
      if id !in options {
        return Err(NotFound("Option not found"));
      }
      var option := options[id];
      if option.votes > 0 {
        return Err(BadRequest("Cannot delete option with votes"));
      }
      DeleteOptionKeepsConsistent(questions, options, id);
      var p := option.question;
      if p in questions {
        questions := questions[p := questions[p].(options := Pull(questions[p].options, id))];
      }
      options := options - {id};
      r := Ok(());
    }

    /** `POST /options/:id/add_vote`: one more vote for the option. */
    method AddVote(id: Id) returns (r: Result<(Id, PollOption)>)
      requires Valid()
      modifies this
      ensures Valid() && VotesKept(old(options), options)
      ensures id !in old(options) ==> r == Err(NotFound("Option not found")) && unchanged(this)
      ensures id in old(options) ==>
                && r == Ok((id, old(options)[id].(votes := old(options)[id].votes + 1)))
                && options == old(options)[id := r.value.1]
                && questions == old(questions)
    {
      if id !in options {
        return Err(NotFound("Option not found"));
      }
      var option := options[id];
      option := option.(votes := option.votes + 1);
      AddVoteKeepsConsistent(questions, options, id);
      options := options[id := option];
      r := Ok((id, option));
    }
  }
}
