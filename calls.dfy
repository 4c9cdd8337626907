/**
 * The call handler `onProcCall(verb, path, args)` as a function of its
 * inputs, the bot handle's presence and the SDK's channel listing. It yields
 * the reply and the `say` calls issued, in order.
 */
module Calls {
  import opened Wrappers
  import opened Channels
  import JsText

  /** The call parameters the handler reads: `args.text` and `args.info`. */
  datatype Args = Args(text: Option<string>, info: Option<string>)

  /** `_info: {doc: {short: …}}`. */
  datatype InfoDoc = InfoDoc(short: string)

  /** The `post` entry of the capability descriptor. */
  datatype PostEntry = PostEntry(text: string, info: Option<InfoDoc>)

  /** The settled reply: the descriptor `{post: …}`, `{success: …}`,
      `{error: …}`, or the rejection of the returned promise. The lister
      rejects with the object `{error: err}` and the handler's `.catch(rj)`
      passes it on unchanged, so `Rejected(e)` stands for `{error: e}`. */
  datatype Reply =
    | Descriptor(post: PostEntry)
    | Success(message: string)
    | Error(message: string)
    | Rejected(reason: string)

  /** One `slackBot.say({text, channel})` call. */
  datatype Say = Say(text: string, channel: string)

  /** What a call does: its reply and the `say` calls it issued. */
  datatype Outcome = Outcome(reply: Reply, says: seq<Say>)

  const Placeholder := "[TEXT TO SAY]"
  const ShortDoc := "Bot to say something"
  const NoText := "No text to say."
  const NoToken := "Slack token is not properly set."
  const PostedPrefix := "Successfully posted to channels ["

  function PathNotSupported(path: string): string {
    "path " + path + " is not supported."
  }

  function NotImplemented(verb: string): string {
    "The specified method " + verb + " is not implemented in admin plugin."
  }

  function SuccessMessage(names: seq<string>): string {
    PostedPrefix + JsText.Join(names, ',') + "]"
  }

  /** The calls that read `args.text`: they fail in JavaScript when `args` is missing. */
  predicate ReadsText(verb: string, path: string) {
    (verb == "GET" || verb == "POST") && path == "post"
  }

  /** The descriptor for `GET` on the empty path. */
  function DescriptorFor(args: Option<Args>): PostEntry {
    if args.Some? && args.value.info == Some("true")
    then PostEntry(Placeholder, Some(InfoDoc(ShortDoc)))
    else PostEntry(Placeholder, None)
  }

  /** `channels.map((ch) => ch.name)`. */
  function Names(chans: seq<Channel>): (r: seq<string>)
    ensures |r| == |chans| && forall k :: 0 <= k < |chans| ==> r[k] == chans[k].name
  {
    seq(|chans|, k requires 0 <= k < |chans| => chans[k].name)
  }

  /** The `forEach` fan-out: one `say` per channel, in order, all with the same text. */
  function Broadcast(text: string, chans: seq<Channel>): (r: seq<Say>)
    ensures |r| == |chans|
    ensures forall k :: 0 <= k < |chans| ==> r[k] == Say(text, chans[k].id)
  {
    if chans == [] then [] else [Say(text, chans[0].id)] + Broadcast(text, chans[1..])
  }

  /** The post handling shared by `POST` and the fall-through of `GET`:
      path, then text, then the bot handle, then the listing. */
  function PostRequest(path: string, args: Option<Args>, botPresent: bool, listing: Listing): Outcome
    requires path == "post" ==> args.Some?
  {
    if path != "post" then Outcome(Error(PathNotSupported(path)), [])
    else if args.value.text.None? || args.value.text.value == "" then Outcome(Error(NoText), [])
    else if !botPresent then Outcome(Error(NoToken), [])
    else match GetChannelsList(botPresent, listing)
      case Err(e) => Outcome(Rejected(e), [])
      case Ok(chans) => Outcome(Success(SuccessMessage(Names(chans))), Broadcast(args.value.text.value, chans))
  }

  /** `onProcCall(verb, path, args)`. */
  function Respond(verb: string, path: string, args: Option<Args>, botPresent: bool, listing: Listing): Outcome
    requires ReadsText(verb, path) ==> args.Some?
  {
    if verb == "GET" && path == "" then Outcome(Descriptor(DescriptorFor(args)), [])
    else if verb == "GET" || verb == "POST" then PostRequest(path, args, botPresent, listing)
    else Outcome(Error(NotImplemented(verb)), [])
  }

  /** The fan-out works piecewise over the channel list. */
  lemma {:induction false} BroadcastAppend(text: string, a: seq<Channel>, b: seq<Channel>)
    ensures Broadcast(text, a + b) == Broadcast(text, a) + Broadcast(text, b)
  {
    if a == [] {
      assert a + b == b;
    } else {
      assert (a + b)[0] == a[0];
      assert (a + b)[1..] == a[1..] + b;
      BroadcastAppend(text, a[1..], b);
    }
  }

  /** `GET` on the empty path: the descriptor, with `_info` exactly when
      `args.info` is the string `'true'`, and no `say`. */
  lemma DescriptorOnRoot(args: Option<Args>, botPresent: bool, listing: Listing)
    ensures var o := Respond("GET", "", args, botPresent, listing);
      && o.says == []
      && o.reply.Descriptor?
      && o.reply.post.text == "[TEXT TO SAY]"
      && (o.reply.post.info.Some? <==> args.Some? && args.value.info == Some("true"))
      && (o.reply.post.info.Some? ==> o.reply.post.info.value == InfoDoc("Bot to say something"))
  {
  }

  /** `GET` on a non-empty path behaves exactly like `POST` on that path. */
  lemma GetFallsThrough(path: string, args: Option<Args>, botPresent: bool, listing: Listing)
    requires path != ""
    requires path == "post" ==> args.Some?
    ensures Respond("GET", path, args, botPresent, listing) == Respond("POST", path, args, botPresent, listing)
  {
  }

  /** Any path other than `post` is refused first, whatever the text, the bot or the listing. */
  lemma PathCheckedFirst(verb: string, path: string, args: Option<Args>, botPresent: bool, listing: Listing)
    requires verb == "POST" || (verb == "GET" && path != "")
    requires path != "post"
    ensures Respond(verb, path, args, botPresent, listing)
            == Outcome(Error("path " + path + " is not supported."), [])
  {
  }

  /** With path `post`, missing or empty text is refused whatever the bot state. */
  lemma MissingTextRefused(verb: string, args: Args, botPresent: bool, listing: Listing)
    requires verb == "GET" || verb == "POST"
    requires args.text.None? || args.text == Some("")
    ensures Respond(verb, "post", Some(args), botPresent, listing)
            == Outcome(Error("No text to say."), [])
  {
  }

  /** With path `post` and some text but no bot handle, the call is refused. */
  lemma MissingBotRefused(verb: string, args: Args, text: string, listing: Listing)
    requires verb == "GET" || verb == "POST"
    requires args.text == Some(text) && text != ""
    ensures Respond(verb, "post", Some(args), false, listing)
            == Outcome(Error("Slack token is not properly set."), [])
  {
  }

  /** Every method but `GET` and `POST` is refused with its own name. */
  lemma OtherMethodsRefused(verb: string, path: string, args: Option<Args>, botPresent: bool, listing: Listing)
    requires verb != "GET" && verb != "POST"
    ensures Respond(verb, path, args, botPresent, listing)
            == Outcome(Error("The specified method " + verb + " is not implemented in admin plugin."), [])
  {
  }

  /** `POST` never reaches the default branch (its second `case` is dead code). */
  lemma PostNeverUnimplemented(path: string, args: Option<Args>, botPresent: bool, listing: Listing)
    requires path == "post" ==> args.Some?
    ensures Respond("POST", path, args, botPresent, listing).reply != Error(NotImplemented("POST"))
  {
    var m := NotImplemented("POST");
    assert m[0] == 'T';
    assert PathNotSupported(path)[0] == 'p';
    assert NoText[0] == 'N';
    assert NoToken[0] == 'S';
  }

  /** A successful post: one `say` per postable channel, in listing order,
      all with the call's text, and a message naming those channels. */
  lemma PostFansOut(verb: string, args: Args, text: string, cs: seq<RawChannel>)
    requires verb == "GET" || verb == "POST"
    requires args.text == Some(text) && text != ""
    ensures var o := Respond(verb, "post", Some(args), true, Listed(cs));
      && o.reply == Success("Successfully posted to channels [" + JsText.Join(Names(Visible(cs)), ',') + "]")
      && |o.says| == |Members(cs)|
      && forall k :: 0 <= k < |o.says| ==> o.says[k] == Say(text, Members(cs)[k].id)
  {
  }

  /** The names in the success message are those of the postable listed
      channels, in listing order. */
  lemma VisibleNames(cs: seq<RawChannel>)
    ensures |Names(Visible(cs))| == |Members(cs)|
    ensures forall k :: 0 <= k < |Members(cs)| ==> Names(Visible(cs))[k] == Members(cs)[k].name
  {
  }

  /** The lister's own `Bot is not defined yet` rejection never reaches the
      handler's reply: the handler checks the bot handle first. At most an
      SDK error with those very words is passed on. */
  lemma BotUndefinedUnreachable(verb: string, path: string, args: Option<Args>, botPresent: bool, listing: Listing)
    requires ReadsText(verb, path) ==> args.Some?
    requires listing != ListError(BotUndefined)
    ensures Respond(verb, path, args, botPresent, listing).reply != Rejected(BotUndefined)
  {
  }

  /** A failed listing rejects the call with the SDK's error and issues no `say`. */
  lemma ListingFailureRejects(verb: string, args: Args, text: string, e: string)
    requires verb == "GET" || verb == "POST"
    requires args.text == Some(text) && text != ""
    ensures Respond(verb, "post", Some(args), true, ListError(e)) == Outcome(Rejected(e), [])
  {
  }

  /** Whatever the call, a `say` is issued only on success, and then only
      to the postable channels, with the call's own text. */
  lemma SaysOnlyOnSuccess(verb: string, path: string, args: Option<Args>, botPresent: bool, listing: Listing)
    requires ReadsText(verb, path) ==> args.Some?
    ensures var o := Respond(verb, path, args, botPresent, listing);
      o.says != [] ==> && o.reply.Success?
                       && ReadsText(verb, path) && botPresent && listing.Listed?
                       && args.value.text.Some?
                       && o.says == Broadcast(args.value.text.value, Visible(listing.channels))
  {
  }

  /** The names in a success message can be read back by splitting on `,`,
      provided no channel name contains a comma. */
  lemma {:induction false} SuccessNamesReadable(chans: seq<Channel>)
    requires chans != []
    requires forall k :: 0 <= k < |chans| ==> ',' !in chans[k].name
    ensures var msg := SuccessMessage(Names(chans));
      && |PostedPrefix| < |msg| && msg[..|PostedPrefix|] == PostedPrefix && msg[|msg| - 1] == ']'
      && JsText.Split(msg[|PostedPrefix|..|msg| - 1], ',') == Names(chans)
  {
    var inner := JsText.Join(Names(chans), ',');
    var msg := SuccessMessage(Names(chans));
    assert msg == PostedPrefix + inner + "]";
    assert msg[|PostedPrefix|..|msg| - 1] == inner;
    JsText.SplitJoin(Names(chans), ',');
  }

  /** A scenario: text "hi" to a joined and an archived channel reaches only
      the joined one. */
  lemma ScenarioOnlyGeneral(args: Args, p1: string, p2: string)
    requires args.text == Some("hi")
    ensures Respond("POST", "post", Some(args), true,
                    Listed([RawChannel("C1", "general", p1, true, false),
                            RawChannel("C2", "old", p2, true, true)]))
            == Outcome(Success("Successfully posted to channels [general]"), [Say("hi", "C1")])
  {
    ArchivedChannelDropped(p1, p2);
    var chans := [Channel("C1", "general", p1)];
    assert Names(chans) == ["general"];
    assert SuccessMessage(["general"]) == "Successfully posted to channels [general]" by {
      assert JsText.Join(["general"], ',') == "general";
    }
    assert Broadcast("hi", chans) == [Say("hi", "C1")];
  }
}
