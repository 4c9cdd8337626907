/**
 * The plugin module's own state and entry points: the bot handle, the
 * host's key-value store and publish bus, the settings hook, the call
 * handler with its `say` fan-out, and the inbound-mention relay.
 */
module Plugin {
  import opened Wrappers
  import opened Channels
  import opened Calls
  import JsText

  /** The key the credential is stored under. */
  const TokenKey := "bottoken"

  /** What `initSlack` returns when there is no usable token. */
  const TokenMissing := "Please set Slack bot API token first."

  /** The settings record the UI hands to `onUISetSettings`: the optional
      `bottoken` and every other field, untouched by the hook. */
  datatype Settings = Settings(bottoken: Option<string>, rest: map<string, string>)

  /** One `pi.server.publish(topic, {params})` call. */
  datatype Publish = Publish(topic: string, params: string)

  /** The settings object as the hook leaves it: a present token is blanked. */
  function Redacted(s: Settings): (r: Settings)
    ensures r.rest == s.rest
    ensures r.bottoken.Some? <==> s.bottoken.Some?
    ensures r.bottoken.Some? ==> r.bottoken.value == ""
  {
    if s.bottoken.Some? then s.(bottoken := Some("")) else s
  }

  /** A settings record without a token comes back as it was. */
  lemma RedactedKeepsTokenless(s: Settings)
    requires s.bottoken.None?
    ensures Redacted(s) == s
  {
  }

  /** Redacting twice is redacting once. */
  lemma RedactedIdempotent(s: Settings)
    ensures Redacted(Redacted(s)) == Redacted(s)
  {
  }

  /** The result of `initSlack()`: `None` when it went on to connect, the
      masked error when the token is absent or the SDK threw. */
  function InitError(store: map<string, string>, sdkOk: bool): (err: Option<string>)
    ensures err.None? <==> TokenKey in store && sdkOk
    ensures err.Some? ==> err.value == TokenMissing
  {
    if TokenKey !in store then Some(TokenMissing)
    else if !sdkOk then Some(TokenMissing)
    else None
  }

  /** `message.text.split(' ')[0]`: the topic of an inbound mention. */
  function Command(text: string): (cmd: string)
    ensures ' ' !in cmd && cmd <= text
    ensures |cmd| < |text| ==> text[|cmd|] == ' '
  {
    JsText.Split(text, ' ')[0]
  }

  /** `message.text.slice(cmd.length).trim()`: the payload of an inbound mention. */
  function Params(text: string): string {
    JsText.Trim(text[|Command(text)|..])
  }

  /** A mention is its command followed by the rest of its text. */
  lemma MentionSplits(text: string)
    ensures Command(text) + text[|Command(text)|..] == text
  {
  }

  /** A mention `w rest`, with `w` free of spaces, publishes `rest`, trimmed, under `w`. */
  lemma {:induction false} MentionOfWord(w: string, rest: string)
    requires ' ' !in w
    ensures Command(w + " " + rest) == w
    ensures Params(w + " " + rest) == JsText.Trim(rest)
  {
    var text := w + " " + rest;
    JsText.PrefixBeforeFirst(w, ' ', rest);
    assert text[|w|..] == " " + rest;
    JsText.TrimStartPadded(" ", rest);
  }

  /** A mention without a space is all command and no parameters. */
  lemma MentionWithoutSpace(text: string)
    requires ' ' !in text
    ensures Command(text) == text && Params(text) == ""
  {
    JsText.PrefixBeforeWhole(text, ' ');
  }

  /**
   * The plugin's module-level state. `botPresent` stands for `slackBot`
   * being set; `store` is `pi.localStorage`; `said` and `published` record
   * the `say` and `publish` calls made so far; `initCount` counts the runs
   * of `initSlack`.
   */
  class Adapter {
    var botPresent: bool
    var store: map<string, string>
    var initCount: nat
    var said: seq<Say>
    var published: seq<Publish>

    /** `init(pluginInterface)`: takes the host's store and runs `initSlack`
        once. `sdkOk` says whether the SDK returned a handle without throwing. */
    constructor (hostStore: map<string, string>, sdkOk: bool)
      ensures store == hostStore && said == [] && published == []
      ensures initCount == 1
      ensures botPresent <==> InitError(hostStore, sdkOk).None?
    {
      botPresent := false;
      store := hostStore;
      initCount := 0;
      said := [];
      published := [];
      new;
      var _ := InitSlack(sdkOk);
    }

    /** `initSlack()`: without a stored token, or when the SDK throws before
        handing back a handle, the masked error and the handle unchanged;
        otherwise the handle is set. */
    method InitSlack(sdkOk: bool) returns (err: Option<string>)
      modifies this`botPresent, this`initCount
      ensures err == InitError(store, sdkOk)
      ensures botPresent == (old(botPresent) || err.None?)
      ensures initCount == old(initCount) + 1
    {
      initCount := initCount + 1;
      if TokenKey !in store {
        return Some(TokenMissing);
      }
      if !sdkOk {
        return Some(TokenMissing);
      }
      botPresent := true;
      err := None;
    }

    /** `onUISetSettings(newSettings)`: a present token is written to the
        store and blanked in the returned record, and `initSlack` runs once;
        a record without a token comes back as it was, with nothing else done. */
    method OnUISetSettings(s: Settings, sdkOk: bool) returns (r: Settings)
      modifies this`store, this`botPresent, this`initCount
      ensures r == Redacted(s)
      ensures s.bottoken.Some? ==>
        && store == old(store)[TokenKey := s.bottoken.value]
        && initCount == old(initCount) + 1
        && botPresent == (old(botPresent) || sdkOk)
      ensures s.bottoken.None? ==>
        store == old(store) && initCount == old(initCount) && botPresent == old(botPresent)
    {
      r := s;
      if s.bottoken.Some? {
        store := store[TokenKey := s.bottoken.value];
        r := r.(bottoken := Some(""));
        var _ := InitSlack(sdkOk);
      }
    }

    /** `onProcCall(method, path, args)`, with `listing` standing for what
        the SDK's `channels.list` delivers: the reply and the `say` calls
        are those of `Respond`. */
    method OnProcCall(verb: string, path: string, args: Option<Args>, listing: Listing) returns (r: Reply)
      requires ReadsText(verb, path) ==> args.Some?
      modifies this`said
      ensures r == Respond(verb, path, args, botPresent, listing).reply
      ensures said == old(said) + Respond(verb, path, args, botPresent, listing).says
    {
      if verb == "GET" && path == "" {
        return Descriptor(DescriptorFor(args));
      }
      if verb != "GET" && verb != "POST" {
        return Error(NotImplemented(verb));
      }
      if path != "post" {
        return Error(PathNotSupported(path));
      }
      var text := args.value.text;
      if text.None? || text.value == "" {
        return Error(NoText);
      }
      if !botPresent {
        return Error(NoToken);
      }
      var listed := GetChannelsList(botPresent, listing);
      if listed.Err? {
        return Rejected(listed.error);
      }
      var channels := listed.value;
      SayToAll(text.value, channels);
      r := Success(SuccessMessage(Names(channels)));
    }

    /** The `channels.forEach` loop: one `say` per channel, in order. */
    method SayToAll(text: string, channels: seq<Channel>)
      modifies this`said
      ensures said == old(said) + Broadcast(text, channels)
    {
      var i := 0;
      while i < |channels|
        invariant 0 <= i <= |channels|
        invariant said == old(said) + Broadcast(text, channels[..i])
      {
        BroadcastAppend(text, channels[..i], [channels[i]]);
        assert channels[..i + 1] == channels[..i] + [channels[i]];
        said := said + [Say(text, channels[i].id)];
        i := i + 1;
      }
      assert channels[..i] == channels;
    }

    /** The `hears` listener: publishes the mention's command as the topic
        and the trimmed remainder as `params`. */
    method OnMention(text: string)
      modifies this`published
      ensures published == old(published) + [Publish(Command(text), Params(text))]
    {
      var cmd := JsText.Split(text, ' ')[0];
      var params := JsText.Trim(text[|cmd|..]);
      published := published + [Publish(cmd, params)];
    }
  }
}
