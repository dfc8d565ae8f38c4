/**
 One keepalive run: `Refresh` (internal/magickeepalive/refresher.go) and the Lambda handler that decides
 whether EventBridge may invoke it again (cmd/magic-keepalive/main.go). What Twitch answers is a parameter;
 store requests go through MagicLinkStore, so a write may take effect and still report failure.
 */
module KeepAlive {
  import opened Options
  import opened Config
  import opened MagicLinkStore

  /** Twitch's answer to a refresh; any field may come back empty. */
  datatype Response = Response(accessToken: Text, refreshToken: Text, expiresIn: int, tokenType: Text)

  /** The call to Twitch fails, or gives an answer that may be nil. */
  datatype Answer = TwitchFailed(error: ForeignErr) | Answered(response: Option<Response>)

  /** The run goes on to write: there is an answer and it has both tokens. */
  predicate IsComplete(response: Option<Response>) {
    response.Some? && response.value.accessToken != "" && response.value.refreshToken != ""
  }

  /** The link to persist: the new tokens, and the prior token type if Twitch omits it. */
  function NextLink(current: MagicLink, response: Response): MagicLink {
    MagicLink(response.accessToken, response.refreshToken, response.expiresIn,
              if response.tokenType == "" then current.tokenType else response.tokenType)
  }

  /** The guard in `Put` never rejects a blob that `Refresh` builds. */
  lemma GuardAccepts(current: MagicLink, response: Response)
    requires IsComplete(Some(response))
    ensures ParseMagicLink(Marshal(NextLink(current, response))) == Some(NextLink(current, response))
  {
  }

  /** The run gets as far as the write: a blob with both tokens was read, and Twitch's answer has both. */
  predicate IsReady(read: Option<Raw>, answer: Answer) {
    read.Some? && ParseMagicLink(read.value).Some? && answer.Answered? && IsComplete(answer.response)
  }

  /** What a run reads from the parameter in this world. */
  function ReadIn(w: World, parameter: Raw): Option<Raw> {
    ContentOf(w.reply(Requests(w)), parameter)
  }

  /** A write in this world reports success. */
  predicate Persists(w: World) {
    w.reply(Requests(w)).error.None?
  }

  /** No request of a write in this world took effect. */
  ghost predicate WroteNothing(w: World) {
    forall i | 1 <= i <= Requests(w) :: w.reply(i).error.Some? && !w.reply(i).tookEffect
  }

  class Refresher {
    const store: Store

    constructor (store: Store)
      ensures this.store == store
    {
      this.store := store;
    }

    /** `read` is what the run read from the store, for the contract only. */
    method Refresh(getWorld: World, answer: Answer, putWorld: World) returns (error: Option<Err>, read: Option<Raw>)
      requires Monotone(getWorld) && Monotone(putWorld)
      modifies store.client
      ensures read == ReadIn(getWorld, old(store.client.value))
      // the three outcomes
      ensures error.None? <==> IsReady(read, answer) && Persists(putWorld)
      ensures error.Some? && IsTokenRotated(error.value) <==> IsReady(read, answer) && !Persists(putWorld)
      // success: exactly the new blob is in the store
      ensures error.None? ==>
        var current, response := ParseMagicLink(old(store.client.value)).value, answer.response.value;
        store.client.value == Doc(MagicLink(
          response.accessToken, response.refreshToken, response.expiresIn,
          if response.tokenType == "" then current.tokenType else response.tokenType))
      // tagged error: Twitch rotated, and the store holds the old or the new blob
      ensures error.Some? && IsTokenRotated(error.value) ==>
        || (WroteNothing(putWorld) && store.client.value == old(store.client.value))
        || (!WroteNothing(putWorld) &&
            store.client.value ==
              Marshal(NextLink(ParseMagicLink(old(store.client.value)).value, answer.response.value)))
      // any other error: no write was issued
      ensures !IsReady(read, answer) ==>
        store.client.value == old(store.client.value) && store.client.puts == old(store.client.puts)
      ensures IsReady(read, answer) ==>
        ParseMagicLink(old(store.client.value)).Some? && store.client.puts == old(store.client.puts) + Requests(putWorld)
    {
      var raw, getError := store.Get(getWorld);
      read := raw;
      if getError.Some? {
        return Some(Wrapped(getError.value)), read;
      }
      var current := ParseMagicLink(raw.value);
      if current.None? || current.value.refreshToken == "" {
        return Some(Fault(Other)), read;
      }
      if answer.TwitchFailed? {
        return Some(Wrapped(answer.error)), read;
      }
      var response := answer.response;
      if response.None? || response.value.accessToken == "" || response.value.refreshToken == "" {
        return Some(Fault(Other)), read;
      }
      var next := NextLink(current.value, response.value);
      var putError := store.Put(Marshal(next), putWorld);
      if putError.Some? {
        return Some(Joined(TokenRotated, Wrapped(putError.value))), read;
      }
      return None, read;
    }
  }

  /** The values of REVIEWER_ACCOUNT_REFRESH_ENABLED that `strconv.ParseBool` reads as true. */
  predicate IsEnabled(raw: Text) {
    raw in {"1", "t", "T", "TRUE", "true", "True"}
  }

  datatype CheckIn = NotOpened | ClosedOk | ClosedError

  /**
   The handler. `configError` is what NewFromEnv reports. A returned error makes EventBridge invoke
   again, so it is returned exactly for failures before any write was issued; a run that rotated the token
   but could not persist it is closed as an error yet returns nil.
   */
  method Handle(flag: Text, configError: Option<ForeignErr>, refresher: Refresher,
                getWorld: World, answer: Answer, putWorld: World) returns (error: Option<Err>, checkIn: CheckIn)
    requires Monotone(getWorld) && Monotone(putWorld)
    modifies refresher.store.client
    ensures checkIn.NotOpened? <==> flag !in {"1", "t", "T", "TRUE", "true", "True"}
    ensures checkIn.NotOpened? ==> error.None?
    ensures checkIn.ClosedOk? <==>
      && !checkIn.NotOpened? && configError.None?
      && IsReady(ReadIn(getWorld, old(refresher.store.client.value)), answer) && Persists(putWorld)
    ensures error.Some? <==>
      && !checkIn.NotOpened?
      && (configError.Some? || !IsReady(ReadIn(getWorld, old(refresher.store.client.value)), answer))
    ensures !checkIn.NotOpened? && configError.Some? ==> error == configError
    ensures checkIn.NotOpened? || error.Some? ==>
      && refresher.store.client.value == old(refresher.store.client.value)
      && refresher.store.client.puts == old(refresher.store.client.puts)
    ensures !checkIn.NotOpened? && error.None? ==> old(refresher.store.client.puts) < refresher.store.client.puts
    ensures checkIn.ClosedOk? ==>
      var current, response := ParseMagicLink(old(refresher.store.client.value)).value, answer.response.value;
      refresher.store.client.value == Doc(MagicLink(
        response.accessToken, response.refreshToken, response.expiresIn,
        if response.tokenType == "" then current.tokenType else response.tokenType))
  {
    if !IsEnabled(flag) {
      return None, NotOpened;
    }
    if configError.Some? {
      return configError, ClosedError;
    }
    var runError, _ := refresher.Refresh(getWorld, answer, putWorld);
    if runError.Some? {
      if IsTokenRotated(runError.value) {
        return None, ClosedError;
      }
      return runError, ClosedError;
    }
    return None, ClosedOk;
  }
}
