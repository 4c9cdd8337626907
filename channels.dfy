/**
 * The channel lister: the chat SDK's channel listing, reduced to the
 * channels the bot may post into and projected to id, name and purpose.
 */
module Channels {
  import opened Wrappers

  /** A channel as the SDK's `channels.list` reports it; `purpose` is kept opaque. */
  datatype RawChannel = RawChannel(id: string, name: string, purpose: string,
                                   isMember: bool, isArchived: bool)

  /** The projection `{id, name, purpose}` the plugin keeps of a channel. */
  datatype Channel = Channel(id: string, name: string, purpose: string)

  /** What the SDK's `channels.list` callback delivered: the channels, or its
      `err`. `ListError` stands for a truthy `err` only: the callback tests
      `if (err)`, so a falsy `err` such as `''` takes the success path. */
  datatype Listing = Listed(channels: seq<RawChannel>) | ListError(err: string)

  /** The message the lister rejects with when there is no bot handle. */
  const BotUndefined := "Bot is not defined yet"

  /** The filter `channel.is_member && !channel.is_archived`. */
  predicate Postable(c: RawChannel) {
    c.isMember && !c.isArchived
  }

  function Project(c: RawChannel): Channel {
    Channel(c.id, c.name, c.purpose)
  }

  /** `channels.filter(Postable)`: the postable channels, in their original order. */
  function Members(cs: seq<RawChannel>): (r: seq<RawChannel>)
    ensures |r| <= |cs|
    ensures forall k :: 0 <= k < |r| ==> Postable(r[k]) && r[k] in cs
  {
    if cs == [] then []
    else (if Postable(cs[0]) then [cs[0]] else []) + Members(cs[1..])
  }

  /** `.map(...)` keeping only `id`, `name` and `purpose`. */
  function ProjectAll(cs: seq<RawChannel>): (r: seq<Channel>)
    ensures |r| == |cs| && forall k :: 0 <= k < |cs| ==> r[k] == Project(cs[k])
  {
    seq(|cs|, k requires 0 <= k < |cs| => Project(cs[k]))
  }

  /** The list `getChannelsList` resolves with for a successful SDK listing. */
  function Visible(cs: seq<RawChannel>): seq<Channel> {
    ProjectAll(Members(cs))
  }

  /** `getChannelsList()`: no handle rejects, an SDK error rejects with that
      error, otherwise the postable channels, projected. */
  function GetChannelsList(botPresent: bool, listing: Listing): Result<seq<Channel>, string> {
    if !botPresent then Err(BotUndefined)
    else match listing
      case ListError(e) => Err(e)
      case Listed(cs) => Ok(Visible(cs))
  }

  /** The projection keeps the filtered listing's order: it works piecewise too. */
  lemma VisibleAppend(a: seq<RawChannel>, b: seq<RawChannel>)
    ensures Visible(a + b) == Visible(a) + Visible(b)
  {
    MembersAppend(a, b);
  }

  /** The `k`-th visible channel is the projection of the `k`-th postable listed channel. */
  lemma VisibleAt(cs: seq<RawChannel>, k: nat)
    requires k < |Members(cs)|
    ensures |Visible(cs)| == |Members(cs)|
    ensures Visible(cs)[k] == Channel(Members(cs)[k].id, Members(cs)[k].name, Members(cs)[k].purpose)
  {
  }

  /** A channel survives the filter exactly when it is listed and postable. */
  lemma {:induction false} MembersExactly(cs: seq<RawChannel>, c: RawChannel)
    ensures c in Members(cs) <==> c in cs && Postable(c)
  {
    if cs != [] {
      MembersExactly(cs[1..], c);
      assert cs == [cs[0]] + cs[1..];
    }
  }

  /** The filter works piecewise, so it keeps the listing's order. */
  lemma {:induction false} MembersAppend(a: seq<RawChannel>, b: seq<RawChannel>)
    ensures Members(a + b) == Members(a) + Members(b)
  {
    if a == [] {
      assert a + b == b;
    } else {
      assert (a + b)[0] == a[0];
      assert (a + b)[1..] == a[1..] + b;
      MembersAppend(a[1..], b);
    }
  }

  /** A listing of postable channels passes the filter untouched. */
  lemma {:induction false} MembersAllPostable(cs: seq<RawChannel>)
    requires forall k :: 0 <= k < |cs| ==> Postable(cs[k])
    ensures Members(cs) == cs
  {
    if cs != [] {
      MembersAllPostable(cs[1..]);
      assert [cs[0]] + cs[1..] == cs;
    }
  }

  /** A listing without postable channels leaves nothing. */
  lemma {:induction false} MembersNonePostable(cs: seq<RawChannel>)
    requires forall k :: 0 <= k < |cs| ==> !Postable(cs[k])
    ensures Members(cs) == []
  {
    if cs != [] {
      MembersNonePostable(cs[1..]);
    }
  }

  /** A projected channel is in the visible list exactly when some listed,
      postable channel projects to it. */
  lemma VisibleExactly(cs: seq<RawChannel>, ch: Channel)
    ensures ch in Visible(cs) <==> exists k :: 0 <= k < |cs| && Postable(cs[k]) && Project(cs[k]) == ch
  {
    var m := Members(cs);
    if ch in Visible(cs) {
      var j :| 0 <= j < |m| && Visible(cs)[j] == ch;
      MembersExactly(cs, m[j]);
      var k :| 0 <= k < |cs| && cs[k] == m[j];
      assert Postable(cs[k]) && Project(cs[k]) == ch;
    }
    if exists k :: 0 <= k < |cs| && Postable(cs[k]) && Project(cs[k]) == ch {
      var k :| 0 <= k < |cs| && Postable(cs[k]) && Project(cs[k]) == ch;
      MembersExactly(cs, cs[k]);
      var j :| 0 <= j < |m| && m[j] == cs[k];
      assert Visible(cs)[j] == ch;
    }
  }

  /** A scenario: a joined channel and an archived one; only the joined one is kept. */
  lemma ArchivedChannelDropped(p1: string, p2: string)
    ensures Visible([RawChannel("C1", "general", p1, true, false),
                     RawChannel("C2", "old", p2, true, true)])
            == [Channel("C1", "general", p1)]
  {
    var c1 := RawChannel("C1", "general", p1, true, false);
    var c2 := RawChannel("C2", "old", p2, true, true);
    assert [c1, c2][1..] == [c2];
    assert [c2][1..] == [];
    assert Members([c1, c2]) == [c1];
  }
}
