/** The JSON shape `getQuestion` answers with, and the vote links in it. */
module Format {
  import opened Results
  import opened Models

  /** One entry of the `options` array: `{ id, text, votes, link_to_vote }`. */
  datatype OptionView = OptionView(id: Id, text: string, votes: nat, linkToVote: string)

  /** The formatted question: `{ id, title, options }`. */
  datatype QuestionView = QuestionView(id: Id, title: string, options: seq<OptionView>)

  /** The URL that casts a vote for option `id`: `${baseUrl}/options/${id}/add_vote`. */
  function VoteLink(baseUrl: string, id: Id): (link: string)
    ensures |link| == |baseUrl| + |id| + 18
  {
    baseUrl + "/options/" + id + "/add_vote"
  }

  /** The option id read back from a URL of exactly the form `VoteLink`
      builds under `baseUrl` (`/options/:id/add_vote`), where `:id` is
      non-empty and has no '/'; `None` for any other URL. */
  function LinkedId(baseUrl: string, link: string): (r: Option<Id>)
    ensures r.Some? ==> IsSegment(r.value) && link == VoteLink(baseUrl, r.value)
  {
    var start, end := |baseUrl| + 9, |link| - 9;
    if start <= end && link[..start] == baseUrl + "/options/" && link[end..] == "/add_vote"
       && IsSegment(link[start..end])
    then
      assert link == link[..start] + link[start..end] + link[end..];
      Some(link[start..end])
    else None
  }

  /** Every vote link for an id the store hands out leads back to the option
      it was made for, so distinct options get distinct links. */
  lemma VoteLinkRoundTrip(baseUrl: string, id: Id)
    requires IsSegment(id)
    ensures LinkedId(baseUrl, VoteLink(baseUrl, id)) == Some(id)
  {
  }

  /** The entry for option `id`, copied from the stored option. */
  function ViewOf(id: Id, o: PollOption, baseUrl: string): OptionView {
    OptionView(id, o.text, o.votes, VoteLink(baseUrl, id))
  }

  /** `question.options` after `populate("options")`, mapped to entries: ids
      with no stored option are dropped, the others keep their list order. */
  function OptionViews(ids: seq<Id>, os: map<Id, PollOption>, baseUrl: string): (r: seq<OptionView>)
    ensures |r| <= |ids|
    ensures forall v :: v in r ==> v.id in ids && v.id in os && v == ViewOf(v.id, os[v.id], baseUrl)
    ensures forall i :: 0 <= i < |ids| && ids[i] in os ==> ViewOf(ids[i], os[ids[i]], baseUrl) in r
    ensures (forall i :: 0 <= i < |ids| ==> ids[i] in os) ==>
              |r| == |ids| && forall i :: 0 <= i < |ids| ==> r[i] == ViewOf(ids[i], os[ids[i]], baseUrl)
  {
    if ids == [] then []
    else
      var rest := OptionViews(ids[1..], os, baseUrl);
      if ids[0] in os then [ViewOf(ids[0], os[ids[0]], baseUrl)] + rest else rest
  }

  /** The entries of two consecutive runs of the list are the entries of the
      first run followed by those of the second: the view keeps list order
      whether or not every listed id is stored. */
  lemma {:induction false} OptionViewsAppend(a: seq<Id>, b: seq<Id>, os: map<Id, PollOption>, baseUrl: string)
    ensures OptionViews(a + b, os, baseUrl) == OptionViews(a, os, baseUrl) + OptionViews(b, os, baseUrl)
  {
    if a == [] {
      assert a + b == b;
    } else {
      assert (a + b)[1..] == a[1..] + b;
      OptionViewsAppend(a[1..], b, os, baseUrl);
    }
  }

  /** The path prefix the routers are mounted under:
      `process.env.API_PREFIX || "/api/v1"`. An unset or empty variable
      selects the default. The variable is read once, when the module is
      loaded, and that is before server.js:6 loads `.env`; so `apiPrefix`
      here is what the process environment held at start-up. */
  function RoutePrefix(apiPrefix: Option<string>): (r: string)
    ensures r != []
    ensures r == "/api/v1" || apiPrefix == Some(r)
    ensures apiPrefix.Some? && apiPrefix.value != "" ==> r == apiPrefix.value
  {
    if apiPrefix.Some? && apiPrefix.value != "" then apiPrefix.value else "/api/v1"
  }

  /** The path `addVote` answers on for option `id`. */
  function VoteRoute(apiPrefix: Option<string>, id: Id): string {
    RoutePrefix(apiPrefix) + "/options/" + id + "/add_vote"
  }

  /** The base URL as the handler writes it:
      `${req.protocol}://${req.get("host")}${process.env.API_PREFIX}`. The
      variable is read on each request, after `.env` is loaded; an unset
      variable is rendered as the text "undefined" and an empty one adds
      nothing. */
  function BaseUrlAsWritten(protocol: string, host: string, apiPrefix: Option<string>): (url: string)
    ensures |url| >= |protocol| + 3 + |host|
    ensures url[..|protocol| + 3 + |host|] == protocol + "://" + host
    ensures apiPrefix.None? ==> url[|protocol| + 3 + |host|..] == "undefined"
    ensures apiPrefix.Some? ==> url[|protocol| + 3 + |host|..] == apiPrefix.value
  {
    var origin := protocol + "://" + host;
    var prefix := if apiPrefix.Some? then apiPrefix.value else "undefined";
    assert (origin + prefix)[..|origin|] == origin && (origin + prefix)[|origin|..] == prefix;
    origin + prefix
  }

  /** When the process started without `API_PREFIX`, so the routers sit
      under "/api/v1", the link the handler writes misses the vote route
      unless the prefix it reads at request time is exactly "/api/v1": an
      unset variable gives "undefined", an empty one nothing, and one set
      only in `.env` some other prefix. */
  lemma AsWrittenLinkMissesRoute(protocol: string, host: string, requestPrefix: Option<string>, id: Id)
    requires requestPrefix != Some("/api/v1")
    ensures VoteLink(BaseUrlAsWritten(protocol, host, requestPrefix), id)
            != protocol + "://" + host + VoteRoute(None, id)
  {
    var origin := protocol + "://" + host;
    var prefix := if requestPrefix.Some? then requestPrefix.value else "undefined";
    var tail := "/options/" + id + "/add_vote";
    var link := origin + prefix + tail;
    var route := origin + "/api/v1" + tail;
    assert VoteLink(BaseUrlAsWritten(protocol, host, requestPrefix), id) == link;
    assert protocol + "://" + host + VoteRoute(None, id) == route;
    if |prefix| != 7 {
      assert |link| != |route|;
    } else {
      assert link[|origin|..|origin| + 7] == prefix;
      assert route[|origin|..|origin| + 7] == "/api/v1";
      assert prefix != "/api/v1";
    }
  }

  /** The base URL built from the same prefix the routers use. */
  function BaseUrl(protocol: string, host: string, apiPrefix: Option<string>): string {
    protocol + "://" + host + RoutePrefix(apiPrefix)
  }

  /** Built from `BaseUrl`, every vote link is the URL of the vote route for
      that option, whatever the environment says. */
  lemma VoteLinkFollowsRoute(protocol: string, host: string, apiPrefix: Option<string>, id: Id)
    ensures VoteLink(BaseUrl(protocol, host, apiPrefix), id) == protocol + "://" + host + VoteRoute(apiPrefix, id)
  {
  }
}
