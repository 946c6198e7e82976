/** Which run and ticket a request is metered under: router/tags.go, router/tagmap.go and
    router/tag_handler.go. */
module Tagging {
  import opened Options
  import opened Ledger

  const UNTAGGED := "untagged"

  // ---------------------------------------------------------------------------------------
  // Tickets
  // ---------------------------------------------------------------------------------------

  predicate IsLetter(c: char) {
    'a' <= c <= 'z' || 'A' <= c <= 'Z'
  }

  predicate IsDigit(c: char) {
    '0' <= c <= '9'
  }

  predicate IsPrefix(p: string) {
    p != "" && IsLetter(p[0]) && forall i :: 0 <= i < |p| ==> IsLetter(p[i]) || IsDigit(p[i])
  }

  predicate IsNumber(d: string) {
    d != "" && forall i :: 0 <= i < |d| ==> IsDigit(d[i])
  }

  /** A ticket with its prefix: the two groups of the ticket pattern. */
  ghost predicate IsTicket(s: string, prefix: string) {
    exists d :: IsPrefix(prefix) && IsNumber(d) && s == prefix + "-" + d
  }

  function IndexOf(s: string, c: char, from: nat): (r: Option<nat>)
    requires from <= |s|
    ensures r.Some? ==> from <= r.value < |s| && s[r.value] == c && forall i :: from <= i < r.value ==> s[i] != c
    ensures r.None? ==> forall i :: from <= i < |s| ==> s[i] != c
    decreases |s| - from
  {
    if from == |s| then None else if s[from] == c then Some(from) else IndexOf(s, c, from + 1)
  }

  datatype Ticket = Ticket(ticket: string, prefix: string)

  function ParseTicket(s: string): Ticket {
    match IndexOf(s, '-', 0)
    case None => Ticket(UNTAGGED, UNTAGGED)
    case Some(i) => if IsPrefix(s[..i]) && IsNumber(s[i + 1..]) then Ticket(s, s[..i]) else Ticket(UNTAGGED, UNTAGGED)
  }

  /** Parsing accepts exactly the tickets, returns them whole with the only prefix they can have, and
      can never mistake one for the "untagged" mark. */
  lemma {:induction false} ParseTicketIff(s: string, prefix: string)
    ensures IsTicket(s, prefix) <==> ParseTicket(s) == Ticket(s, prefix) && s != UNTAGGED
    ensures ParseTicket(s).ticket == UNTAGGED <==> forall p :: !IsTicket(s, p)
    ensures ParseTicket(s).ticket == UNTAGGED <==> ParseTicket(s) == Ticket(UNTAGGED, UNTAGGED)
  {
    TicketSplits(s);
    forall p | IsTicket(s, p) ensures ParseTicket(s) == Ticket(s, p) && s != UNTAGGED {
      TicketSplitsOnce(s, p);
    }
  }

  lemma {:induction false} TicketSplitsOnce(s: string, p: string)
    requires IsTicket(s, p)
    ensures IndexOf(s, '-', 0) == Some(|p|) && ParseTicket(s) == Ticket(s, p) && s != UNTAGGED
  {
    var d :| IsPrefix(p) && IsNumber(d) && s == p + "-" + d;
    assert s[|p|] == '-';
    assert forall i :: 0 <= i < |p| ==> s[i] == p[i];
    assert s[..|p|] == p && s[|p| + 1..] == d;
  }

  lemma {:induction false} TicketSplits(s: string)
    ensures ParseTicket(s) != Ticket(UNTAGGED, UNTAGGED)
        ==> ParseTicket(s).ticket == s && IsTicket(s, ParseTicket(s).prefix)
    ensures ParseTicket(s).ticket == UNTAGGED ==> ParseTicket(s) == Ticket(UNTAGGED, UNTAGGED)
  {
    var i := IndexOf(s, '-', 0);
    if i.Some? && IsPrefix(s[..i.value]) && IsNumber(s[i.value + 1..]) {
      assert s == s[..i.value] + "-" + s[i.value + 1..];
      assert UNTAGGED[0] == 'u' && forall k :: 0 <= k < |UNTAGGED| ==> UNTAGGED[k] != '-';
    }
  }

  /** Parsing, character by character: a letter, letters and digits, one dash, and digits, nothing before and
      nothing after; the prefix is what stands before the dash. Anything else is "untagged". */
  lemma {:induction false} ParseTicketExactly(s: string)
    ensures forall i :: 0 < i < |s| - 1 && s[i] == '-' && ('a' <= s[0] <= 'z' || 'A' <= s[0] <= 'Z')
              && (forall k :: 0 <= k < i ==> 'a' <= s[k] <= 'z' || 'A' <= s[k] <= 'Z' || '0' <= s[k] <= '9')
              && (forall k :: i < k < |s| ==> '0' <= s[k] <= '9')
              ==> ParseTicket(s) == Ticket(s, s[..i])
    ensures (forall i :: 0 < i < |s| - 1 && s[i] == '-' && ('a' <= s[0] <= 'z' || 'A' <= s[0] <= 'Z')
               ==> || (exists k :: 0 <= k < i && !('a' <= s[k] <= 'z' || 'A' <= s[k] <= 'Z' || '0' <= s[k] <= '9'))
                   || (exists k :: i < k < |s| && !('0' <= s[k] <= '9')))
        ==> ParseTicket(s) == Ticket("untagged", "untagged")
  {
    forall i | 0 < i < |s| - 1 && s[i] == '-' && IsPrefix(s[..i]) && IsNumber(s[i + 1..])
      ensures ParseTicket(s) == Ticket(s, s[..i])
    {
      assert s == s[..i] + "-" + s[i + 1..];
      TicketSplitsOnce(s, s[..i]);
    }
    forall i | 0 < i < |s| - 1 && s[i] == '-' && ('a' <= s[0] <= 'z' || 'A' <= s[0] <= 'Z')
      ensures IsPrefix(s[..i])
         <==> forall k :: 0 <= k < i ==> 'a' <= s[k] <= 'z' || 'A' <= s[k] <= 'Z' || '0' <= s[k] <= '9'
      ensures IsNumber(s[i + 1..]) <==> forall k :: i < k < |s| ==> '0' <= s[k] <= '9'
    {
      SliceIsPrefix(s, i);
      SliceIsNumber(s, i);
    }
  }

  lemma {:induction false} SliceIsPrefix(s: string, i: nat)
    requires 0 < i < |s| && ('a' <= s[0] <= 'z' || 'A' <= s[0] <= 'Z')
    ensures IsPrefix(s[..i])
       <==> forall k :: 0 <= k < i ==> 'a' <= s[k] <= 'z' || 'A' <= s[k] <= 'Z' || '0' <= s[k] <= '9'
  {
    assert forall k :: 0 <= k < i ==> s[..i][k] == s[k];
  }

  lemma {:induction false} SliceIsNumber(s: string, i: nat)
    requires i < |s| - 1
    ensures IsNumber(s[i + 1..]) <==> forall k :: i < k < |s| ==> '0' <= s[k] <= '9'
  {
    var d := s[i + 1..];
    assert forall k :: i < k < |s| ==> s[k] == d[k - (i + 1)];
  }

  // ---------------------------------------------------------------------------------------
  // Paths
  // ---------------------------------------------------------------------------------------

  datatype Routed = Routed(run: string, path: string)

  function ExtractRunFromPath(path: string): Routed {
    if !("/r/" <= path) then Routed(UNTAGGED, path)
    else if path[3..] == "" then Routed(UNTAGGED, path)
    else
      var rest := path[3..];
      match IndexOf(rest, '/', 0)
      case None => Routed(rest, "/")
      case Some(i) => Routed(rest[..i], rest[i..])
  }

  /** A run in the path comes off it, and off it only; a run id never holds a slash, but it can be
      empty: `/r//x` names the empty run. */
  lemma {:induction false} ExtractRunPutsBack(path: string)
    ensures var r := ExtractRunFromPath(path);
            || (r.run == UNTAGGED && r.path == path)
            || (path == "/r/" + r.run && r.path == "/")
            || (path == "/r/" + r.run + r.path && r.path != "" && r.path[0] == '/')
    ensures forall i :: 0 <= i < |ExtractRunFromPath(path).run| ==> ExtractRunFromPath(path).run[i] != '/'
  {
    if "/r/" <= path && path[3..] != "" {
      var rest := path[3..];
      assert path == "/r/" + rest;
      match IndexOf(rest, '/', 0)
      case None =>
      case Some(i) => assert rest == rest[..i] + rest[i..];
    }
  }

  /** Which run a path names: whatever follows `/r/` up to the next slash, which stays with the path; up to the
      end if there is none, and the path is then the root; and none for any other path, or when nothing
      follows. */
  lemma {:induction false} ExtractRunExactly(path: string)
    ensures path == "/r/" || !("/r/" <= path) ==> ExtractRunFromPath(path) == Routed("untagged", path)
    ensures forall run :: run != "" && path == "/r/" + run && (forall k :: 0 <= k < |run| ==> run[k] != '/')
              ==> ExtractRunFromPath(path) == Routed(run, "/")
    ensures forall run, rest :: path == "/r/" + run + "/" + rest && (forall k :: 0 <= k < |run| ==> run[k] != '/')
              ==> ExtractRunFromPath(path) == Routed(run, "/" + rest)
  {
    forall run | run != "" && path == "/r/" + run && (forall k :: 0 <= k < |run| ==> run[k] != '/')
      ensures ExtractRunFromPath(path) == Routed(run, "/")
    {
      assert path[..3] == "/r/" && path[3..] == run;
    }
    forall run, rest | path == "/r/" + run + "/" + rest && (forall k :: 0 <= k < |run| ==> run[k] != '/')
      ensures ExtractRunFromPath(path) == Routed(run, "/" + rest)
    {
      RunBeforeSlash(path, run, rest);
    }
  }

  lemma {:induction false} RunBeforeSlash(path: string, run: string, rest: string)
    requires path == "/r/" + run + "/" + rest && forall k :: 0 <= k < |run| ==> run[k] != '/'
    ensures ExtractRunFromPath(path) == Routed(run, "/" + rest)
  {
    var after := run + "/" + rest;
    assert path == "/r/" + after && path[..3] == "/r/" && path[3..] == after;
    assert after[|run|] == '/' && forall k :: 0 <= k < |run| ==> after[k] == run[k];
    assert after[..|run|] == run && after[|run|..] == "/" + rest;
  }

  // ---------------------------------------------------------------------------------------
  // Requests
  // ---------------------------------------------------------------------------------------

  /** The two headers are empty when absent. */
  datatype Request = Request(path: string, headerRun: string, headerTicket: string)

  function RunOf(r: Request): string {
    if r.headerRun != "" then r.headerRun else ExtractRunFromPath(r.path).run
  }

  /** `ParseTags`: the tags, and the path that is sent upstream. */
  method ParseTags(r: Request) returns (tags: Tags, path: string)
    ensures path == ExtractRunFromPath(r.path).path
    ensures tags.run == RunOf(r)
    ensures Ticket(tags.ticket, tags.prefix)
         == if r.headerTicket != "" then ParseTicket(r.headerTicket) else Ticket(UNTAGGED, UNTAGGED)
  {
    tags := Tags(UNTAGGED, UNTAGGED, UNTAGGED);
    var routed := ExtractRunFromPath(r.path);
    path := routed.path;
    if r.headerRun != "" {
      tags := tags.(run := r.headerRun);
    } else {
      tags := tags.(run := routed.run);
    }
    if r.headerTicket != "" {
      var t := ParseTicket(r.headerTicket);
      tags := tags.(ticket := t.ticket, prefix := t.prefix);
    }
  }

  /** What a request resolves to: the header's ticket, else the run's mapped ticket, else untagged. */
  function Resolved(r: Request, mapping: map<string, string>): Tags {
    var t := if r.headerTicket != "" then ParseTicket(r.headerTicket)
             else if RunOf(r) in mapping && mapping[RunOf(r)] != "" then ParseTicket(mapping[RunOf(r)])
             else Ticket(UNTAGGED, UNTAGGED);
    Tags(RunOf(r), t.ticket, t.prefix)
  }

  predicate ValidRun(run: string) {
    run != "" && run != UNTAGGED
  }

  class TagMap {
    var tags: map<string, string>

    constructor ()
      ensures tags == map[]
    {
      tags := map[];
    }

    method Set(run: string, ticket: string) returns (ok: bool)
      modifies this
      ensures ok == (run != "" && run != "untagged")
      ensures tags == if ok then old(tags)[run := ticket] else old(tags)
    {
      if run == "" || run == UNTAGGED {
        return false;
      }
      tags := tags[run := ticket];
      return true;
    }

    method Clear(run: string)
      modifies this
      ensures tags == old(tags) - {run}
    {
      tags := tags - {run};
    }

    method Get(run: string) returns (ticket: string, ok: bool)
      ensures ok == (run in tags) && ticket == if ok then tags[run] else ""
    {
      if run in tags {
        return tags[run], true;
      }
      return "", false;
    }
  }

  method ResolveTags(r: Request, tm: TagMap) returns (tags: Tags, path: string)
    ensures tags == Resolved(r, tm.tags) && path == ExtractRunFromPath(r.path).path
  {
    tags, path := ParseTags(r);
    if r.headerTicket != "" {
      return;
    }
    var mapped, ok := tm.Get(tags.run);
    if ok && mapped != "" {
      var t := ParseTicket(mapped);
      tags := tags.(ticket := t.ticket, prefix := t.prefix);
    }
  }

  // ---------------------------------------------------------------------------------------
  // The only writer of the map
  // ---------------------------------------------------------------------------------------

  datatype Post = Post(run: string, ticket: string)
  datatype Reply = BadRequest(error: string) | Tagged(run: string, ticket: string, prefix: string)

  /** The map after one post, `None` being a body that is not JSON. */
  function AfterPost(mapping: map<string, string>, body: Option<Post>): map<string, string> {
    if body.None? || !ValidRun(body.value.run) then mapping
    else if body.value.ticket == "" || body.value.ticket == UNTAGGED then mapping - {body.value.run}
    else if ParseTicket(body.value.ticket).ticket == UNTAGGED then mapping
    else mapping[body.value.run := body.value.ticket]
  }

  /** A post that takes effect for a run: accepted, and about that run. */
  ghost predicate Settles(body: Option<Post>, run: string) {
    && body.Some? && body.value.run == run && run != "" && run != "untagged"
    && (body.value.ticket == "" || body.value.ticket == "untagged" || exists p :: IsTicket(body.value.ticket, p))
  }

  method HandleTagPost(body: Option<Post>, tm: TagMap) returns (reply: Reply)
    modifies tm
    ensures tm.tags == AfterPost(old(tm.tags), body)
    ensures reply.Tagged? <==> exists run :: Settles(body, run)
    ensures reply.Tagged? ==> reply.run == body.value.run && (reply.ticket == UNTAGGED <==> reply.run !in tm.tags)
    ensures reply.Tagged? && reply.run !in tm.tags ==> reply.prefix == UNTAGGED
    ensures reply.BadRequest? ==>
              reply.error == if body.None? then "invalid JSON"
                             else if !ValidRun(body.value.run) then "invalid run"
                             else "malformed ticket"
    ensures reply.Tagged? && reply.run in tm.tags
        ==> tm.tags[reply.run] == reply.ticket && IsTicket(reply.ticket, reply.prefix)
  {
    if body.None? {
      return BadRequest("invalid JSON");
    }
    var req := body.value;
    assert ValidRun(req.run) ==> (Settles(body, req.run) <==>
      req.ticket == "" || req.ticket == UNTAGGED || exists p :: IsTicket(req.ticket, p));
    ParseTicketIff(req.ticket, ParseTicket(req.ticket).prefix);
    if req.run == "" || req.run == UNTAGGED {
      return BadRequest("invalid run");
    }
    if req.ticket == "" || req.ticket == UNTAGGED {
      tm.Clear(req.run);
      return Tagged(req.run, UNTAGGED, UNTAGGED);
    }
    var t := ParseTicket(req.ticket);
    if t.ticket == UNTAGGED {
      return BadRequest("malformed ticket");
    }
    TicketSplits(req.ticket);
    var _ := tm.Set(req.run, t.ticket);
    return Tagged(req.run, t.ticket, t.prefix);
  }

  // ---------------------------------------------------------------------------------------
  // The map over a whole history of posts
  // ---------------------------------------------------------------------------------------

  function AfterPosts(posts: seq<Option<Post>>): map<string, string> {
    if posts == [] then map[] else AfterPost(AfterPosts(posts[..|posts| - 1]), posts[|posts| - 1])
  }

  lemma {:induction false} PostAppend(posts: seq<Option<Post>>, body: Option<Post>)
    ensures AfterPosts(posts + [body]) == AfterPost(AfterPosts(posts), body)
  {
    assert (posts + [body])[..|posts|] == posts;
  }

  /** Post `i` is the last one that settled the run. */
  ghost predicate LastSettling(posts: seq<Option<Post>>, run: string, i: int) {
    0 <= i < |posts| && Settles(posts[i], run) && forall j :: i < j < |posts| ==> !Settles(posts[j], run)
  }

  lemma {:induction false} LastSettlingStep(init: seq<Option<Post>>, last: Option<Post>, run: string, i: int)
    ensures LastSettling(init + [last], run, i)
        <==> if Settles(last, run) then i == |init| else LastSettling(init, run, i)
  {
    var posts := init + [last];
    assert posts[|init|] == last && forall j :: 0 <= j < |init| ==> posts[j] == init[j];
  }

  ghost predicate GivenLast(posts: seq<Option<Post>>, run: string, t: string) {
    exists i :: LastSettling(posts, run, i) && posts[i].value.ticket == t && exists p :: IsTicket(t, p)
  }

  lemma {:induction false} GivenLastStep(init: seq<Option<Post>>, last: Option<Post>, run: string, t: string)
    ensures GivenLast(init + [last], run, t)
       <==> if Settles(last, run) then last.value.ticket == t && exists p :: IsTicket(t, p) else GivenLast(init, run, t)
  {
    var posts := init + [last];
    LastSettlingStep(init, last, run, |init|);
    if i :| LastSettling(posts, run, i) && posts[i].value.ticket == t && exists p :: IsTicket(t, p) {
      LastSettlingStep(init, last, run, i);
    }
    if i :| LastSettling(init, run, i) && init[i].value.ticket == t && exists p :: IsTicket(t, p) {
      LastSettlingStep(init, last, run, i);
      assert posts[i] == init[i];
    }
  }

  /** The map is exactly "the last accepted post wins": it holds ticket `t` for a run if and only if the
      last post that settled the run gave it `t`, and `t` is a ticket. */
  lemma {:induction false} LastPostWins(posts: seq<Option<Post>>, run: string, t: string)
    ensures run in AfterPosts(posts) && AfterPosts(posts)[run] == t <==> GivenLast(posts, run, t)
  {
    if posts != [] {
      var init, last := posts[..|posts| - 1], posts[|posts| - 1];
      LastPostWins(init, run, t);
      GivenLastStep(init, last, run, t);
      assert posts == init + [last];
      if last.Some? {
        ParseTicketIff(last.value.ticket, ParseTicket(last.value.ticket).prefix);
        NoMarkIsTicket();
      }
    }
  }

  lemma {:induction false} NoMarkIsTicket()
    ensures forall p :: !IsTicket("", p) && !IsTicket(UNTAGGED, p)
  {
    ParseTicketIff("", "");
    ParseTicketIff(UNTAGGED, "");
    assert IndexOf("", '-', 0) == None;
  }

  /** What every history keeps: no entry for the empty or untagged run, and tickets only. */
  ghost predicate MapOk(mapping: map<string, string>) {
    forall run :: run in mapping ==> ValidRun(run) && exists p :: IsTicket(mapping[run], p)
  }

  lemma {:induction false} PostsKeepMapOk(posts: seq<Option<Post>>)
    ensures MapOk(AfterPosts(posts))
  {
    if posts != [] {
      PostsKeepMapOk(posts[..|posts| - 1]);
      var last := posts[|posts| - 1];
      if last.Some? {
        ParseTicketIff(last.value.ticket, ParseTicket(last.value.ticket).prefix);
      }
    }
  }
}
