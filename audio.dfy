/**
 * The text-to-speech cache and the player registry: the 32-bit text hash that names cached
 * clips, the path a clip is written to and looked up at, the checks made before a speech
 * request, the choice between a fresh clip and a cached one, and the set of active players
 * that `stopAllAudio` empties. The speech service, the file system and playback are inputs.
 */
module Audio {
  import opened Wrappers
  import opened Strings
  import opened Numbers
  import opened Personas

  /* ---------- The text hash ---------- */

  /** The UTF-16 code units of a character, as `charCodeAt` reads them. */
  function Utf16(c: char): (units: seq<int>)
    ensures 1 <= |units| <= 2
    ensures forall k :: 0 <= k < |units| ==> 0 <= units[k] < 0x1_0000
    ensures c as int < 0x1_0000 ==> units == [c as int]
  {
    var v := c as int;
    if v < 0x1_0000 then [v]
    else [0xD800 + (v - 0x1_0000) / 0x400, 0xDC00 + (v - 0x1_0000) % 0x400]
  }

  /** The code units of a string: what `text.length` counts and `charCodeAt` indexes. */
  function CodeUnits(s: string): (units: seq<int>)
    ensures |units| >= |s|
    ensures forall k :: 0 <= k < |units| ==> 0 <= units[k] < 0x1_0000
  {
    if s == [] then [] else Utf16(s[0]) + CodeUnits(s[1..])
  }

  /**
   * One step of the loop as written: `((hash << 5) - hash) + char`, then `hash & hash`.
   * `<<` works on the 32-bit value of its operand and `&` brings the sum back to 32 bits.
   */
  function HashStep(hash: int, unit: int): (h: int)
    ensures -TwoTo31 <= h < TwoTo31
  {
    ToInt32(ToInt32(hash * 32) - hash + unit)
  }

  /** The hash after the given code units, starting from 0. */
  function Hash(units: seq<int>): (h: int)
    ensures -TwoTo31 <= h < TwoTo31
  {
    if units == [] then 0 else HashStep(Hash(units[..|units| - 1]), units[|units| - 1])
  }

  /** Two integers that agree modulo 2^32 have the same 32-bit value. */
  lemma ToInt32Congruent(x: int, y: int)
    requires (x - y) % TwoTo32 == 0
    ensures ToInt32(x) == ToInt32(y)
  {
    var k := (x - y) / TwoTo32;
    assert x == y + TwoTo32 * k;
    assert (x + TwoTo31) % TwoTo32 == (y + TwoTo31) % TwoTo32 by {
      ModAddMultiple(y + TwoTo31, k);
    }
  }

  lemma ModAddMultiple(a: int, k: int)
    ensures (a + TwoTo32 * k) % TwoTo32 == a % TwoTo32
  {
  }

  /** The shift-and-subtract step is the multiply-by-31 step of the classic string hash, on 32 bits. */
  lemma HashStepTimes31(hash: int, unit: int)
    ensures HashStep(hash, unit) == ToInt32(31 * hash + unit)
  {
    var shifted := ToInt32(hash * 32);
    assert (hash * 32 - shifted) % TwoTo32 == 0;
    var k := (hash * 32 - shifted) / TwoTo32;
    assert shifted - hash + unit == 31 * hash + unit - TwoTo32 * k;
    ToInt32Congruent(shifted - hash + unit, 31 * hash + unit);
  }

  /** The reference definition: the sum of u[i] * 31^(n-1-i), with no wrap-around. */
  function Polynomial(units: seq<int>): int {
    if units == [] then 0 else 31 * Polynomial(units[..|units| - 1]) + units[|units| - 1]
  }

  /** The hash is the 32-bit value of the polynomial: the wrap-around at each step loses nothing else. */
  lemma {:induction false} HashIsPolynomial(units: seq<int>)
    ensures Hash(units) == ToInt32(Polynomial(units))
  {
    if units != [] {
      var prefix := units[..|units| - 1];
      var last := units[|units| - 1];
      HashIsPolynomial(prefix);
      HashStepTimes31(Hash(prefix), last);
      var p := Polynomial(prefix);
      assert (p - Hash(prefix)) % TwoTo32 == 0;
      var k := (p - Hash(prefix)) / TwoTo32;
      assert 31 * p + last - (31 * Hash(prefix) + last) == TwoTo32 * (31 * k);
      ModAddMultiple(0, 31 * k);
      ToInt32Congruent(31 * p + last, 31 * Hash(prefix) + last);
    }
  }

  function Abs(n: int): nat {
    if n < 0 then -n else n
  }

  /** `hashText`: the lower-case hex digits of the absolute value of the hash. */
  function HashDigest(text: string): string {
    ToHex(Abs(Hash(CodeUnits(text))))
  }

  /** `hashText` as the loop it is: the hash follows the recurrence over the code units. */
  method HashText(text: string) returns (digest: string)
    ensures digest == HashDigest(text)
  {
    var units := CodeUnits(text);
    var hash := 0;
    var i := 0;
    while i < |units|
      invariant 0 <= i <= |units|
      invariant hash == Hash(units[..i])
    {
      assert units[..i + 1][..i] == units[..i];
      hash := HashStep(hash, units[i]);
      i := i + 1;
    }
    assert units[..i] == units;
    digest := ToHex(Abs(hash));
  }

  /** The digest is one to eight lower-case hex digits, and "0" for the empty text. */
  lemma DigestShape(text: string)
    ensures 1 <= |HashDigest(text)| <= 8
    ensures forall k :: 0 <= k < |HashDigest(text)| ==> IsLowerHexDigit(HashDigest(text)[k])
    ensures text == "" ==> HashDigest(text) == "0"
  {
    var h := Hash(CodeUnits(text));
    assert Abs(h) <= TwoTo31;
    assert Pow16(8) == TwoTo32 by {
      assert Pow16(2) == 256;
      assert Pow16(4) == 256 * 256 by {
        assert Pow16(4) == 16 * 16 * Pow16(2);
      }
      assert Pow16(8) == Pow16(4) * Pow16(4) by {
        assert Pow16(8) == 16 * 16 * 16 * 16 * Pow16(4);
      }
    }
    ToHexLength(Abs(h), 8);
  }

  /* ---------- Markdown bold ---------- */

  /** Whether `s` contains "**". */
  predicate NoBold(s: string) {
    forall i :: 0 <= i < |s| - 1 ==> !(s[i] == '*' && s[i + 1] == '*')
  }

  /** The global replacement of "**" by nothing: every "**" found scanning from the left is removed. */
  function StripBold(s: string): (r: string)
    ensures |r| <= |s|
    ensures s != [] && s[0] != '*' ==> r != [] && r[0] == s[0]
    ensures NoBold(r)
  {
    if |s| >= 2 && s[0] == '*' && s[1] == '*' then StripBold(s[2..])
    else if s == [] then []
    else [s[0]] + StripBold(s[1..])
  }

  /** A text without "**" is spoken as it is; so stripping twice is stripping once. */
  lemma {:induction false} StripBoldIdentity(s: string)
    requires NoBold(s)
    ensures StripBold(s) == s
  {
    if s != [] {
      assert NoBold(s[1..]) by {
        forall i | 0 <= i < |s[1..]| - 1 ensures !(s[1..][i] == '*' && s[1..][i + 1] == '*') {
          assert s[1..][i] == s[i + 1] && s[1..][i + 1] == s[i + 2];
        }
      }
      StripBoldIdentity(s[1..]);
      if |s| >= 2 {
        assert !(s[0] == '*' && s[1] == '*');
      }
    }
  }

  lemma StripBoldIdempotent(s: string)
    ensures StripBold(StripBold(s)) == StripBold(s)
  {
    StripBoldIdentity(StripBold(s));
  }

  /** The characters other than '*', in order. */
  function NonStars(s: string): string {
    if s == [] then [] else (if s[0] == '*' then [] else [s[0]]) + NonStars(s[1..])
  }

  /** Stripping removes asterisks only: every other character is kept, in order. */
  lemma {:induction false} StripBoldKeepsText(s: string)
    ensures NonStars(StripBold(s)) == NonStars(s)
  {
    if |s| >= 2 && s[0] == '*' && s[1] == '*' {
      StripBoldKeepsText(s[2..]);
      assert NonStars(s) == NonStars(s[1..]);
      assert s[1..][1..] == s[2..];
      assert NonStars(s[1..]) == NonStars(s[2..]);
    } else if s != [] {
      StripBoldKeepsText(s[1..]);
      assert ([s[0]] + StripBold(s[1..]))[1..] == StripBold(s[1..]);
    }
  }

  /* ---------- The speech cache ---------- */

  const MissingKeyMessage := "Missing EXPO_PUBLIC_ELEVENLABS_API_KEY env variable"
  const NoTextMessage := "No text provided for TTS"

  /** The path `fetchTTSAndCache` writes: the `tts/` directory, then `<persona>_<hash>.mp3`. */
  function WrittenPath(cacheDirectory: string, personaId: string, text: string): string {
    var dir := cacheDirectory + "tts/";
    dir + personaId + "_" + HashDigest(text) + ".mp3"
  }

  /** The path `getCachedTTSClip` looks up. */
  function LookupPath(cacheDirectory: string, personaId: string, text: string): string {
    cacheDirectory + "tts/" + personaId + "_" + HashDigest(text) + ".mp3"
  }

  /** The request sent to the speech service, and where its clip is written. */
  datatype SpeechRequest = SpeechRequest(path: string, config: TtsConfig, spokenText: string)

  /** The checks and preparation at the head of `fetchTTSAndCache`. */
  function PrepareSpeech(apiKey: Option<string>, cacheDirectory: string, personaId: string, text: string): (r: Result<SpeechRequest, string>)
    ensures r.Err? <==> !Truthy(apiKey) || text == ""
    ensures !Truthy(apiKey) ==> r == Err(MissingKeyMessage)
    ensures Truthy(apiKey) && text == "" ==> r == Err(NoTextMessage)
  {
    if !Truthy(apiKey) then Err(MissingKeyMessage)
    else if text == "" then Err(NoTextMessage)
    else Ok(SpeechRequest(WrittenPath(cacheDirectory, personaId, text), GetTtsConfig(personaId), StripBold(text)))
  }

  /** What `playPersonaTTS` plays, or the error it rethrows. */
  datatype Playback = Played(uri: string, fromCache: bool) | PlaybackFailed(message: string)

  /** The `try` block: prepare, fetch and write, then play the new clip; the first error stops it. */
  function FreshPlayback(apiKey: Option<string>, cacheDirectory: string, personaId: string, text: string,
                         fetch: SpeechRequest -> Result<(), string>, play: string -> Result<(), string>): Result<string, string>
  {
    match PrepareSpeech(apiKey, cacheDirectory, personaId, text)
    case Err(m) => Err(m)
    case Ok(request) =>
      if fetch(request).Err? then Err(fetch(request).error)
      else if play(request.path).Err? then Err(play(request.path).error)
      else Ok(request.path)
  }

  /**
   * `playPersonaTTS`. `fetch` is the request and the write of its clip, `play` the playback
   * of a file, `cached` the clips already on disk. Any failure of the fresh path turns to the
   * cached clip; without one, the first error is rethrown.
   */
  function PlayPersonaTts(apiKey: Option<string>, cacheDirectory: string, personaId: string, text: string,
                          fetch: SpeechRequest -> Result<(), string>, play: string -> Result<(), string>,
                          cached: set<string>): Playback
  {
    var attempt := FreshPlayback(apiKey, cacheDirectory, personaId, text, fetch, play);
    if attempt.Ok? then Played(attempt.value, false)
    else
      var lookup := LookupPath(cacheDirectory, personaId, text);
      if lookup !in cached then PlaybackFailed(attempt.error)
      else if play(lookup).Err? then PlaybackFailed(play(lookup).error)
      else Played(lookup, true)
  }

  /**
   * A prepared request writes its clip exactly where a later lookup for the same persona and
   * text searches, under a name made of the persona and the hash; the text sent has no "**".
   */
  lemma SpeechRequestContents(apiKey: Option<string>, cacheDirectory: string, personaId: string, text: string)
    requires PrepareSpeech(apiKey, cacheDirectory, personaId, text).Ok?
    ensures var request := PrepareSpeech(apiKey, cacheDirectory, personaId, text).value;
      && request.path == LookupPath(cacheDirectory, personaId, text)
      && request.path == cacheDirectory + "tts/" + personaId + "_" + HashDigest(text) + ".mp3"
      && request.config == GetPersona(personaId).tts
      && NoBold(request.spokenText)
      && NonStars(request.spokenText) == NonStars(text)
  {
    StripBoldKeepsText(text);
  }

  /** Without a key or a text no request is made: the result is the same whatever the service would do. */
  lemma NoRequestWithoutKeyOrText(apiKey: Option<string>, cacheDirectory: string, personaId: string, text: string,
                                  fetch1: SpeechRequest -> Result<(), string>, fetch2: SpeechRequest -> Result<(), string>,
                                  play: string -> Result<(), string>, cached: set<string>)
    requires !Truthy(apiKey) || text == ""
    ensures PlayPersonaTts(apiKey, cacheDirectory, personaId, text, fetch1, play, cached)
         == PlayPersonaTts(apiKey, cacheDirectory, personaId, text, fetch2, play, cached)
  {
  }

  /**
   * Once a clip has been fetched and written for a persona and text, a later call for the
   * same persona and text whose fetch fails plays that clip from the cache.
   */
  lemma CachedClipReplayed(apiKey: Option<string>, cacheDirectory: string, personaId: string, text: string,
                           fetch: SpeechRequest -> Result<(), string>, play: string -> Result<(), string>,
                           cached: set<string>)
    requires PrepareSpeech(apiKey, cacheDirectory, personaId, text).Ok?
    requires fetch(PrepareSpeech(apiKey, cacheDirectory, personaId, text).value).Err?
    requires PrepareSpeech(apiKey, cacheDirectory, personaId, text).value.path in cached
    requires play(LookupPath(cacheDirectory, personaId, text)).Ok?
    ensures PlayPersonaTts(apiKey, cacheDirectory, personaId, text, fetch, play, cached)
         == Played(PrepareSpeech(apiKey, cacheDirectory, personaId, text).value.path, true)
  {
  }

  /**
   * The outcome: a fresh clip when everything succeeds. Otherwise the cached clip when there
   * is one and it plays; the cached replay's error when it does not; and with no cached clip,
   * the error first thrown by the preparation, the fetch or the fresh playback, in that order.
   */
  lemma PlaybackOutcome(apiKey: Option<string>, cacheDirectory: string, personaId: string, text: string,
                        fetch: SpeechRequest -> Result<(), string>, play: string -> Result<(), string>,
                        cached: set<string>)
    ensures var r := PlayPersonaTts(apiKey, cacheDirectory, personaId, text, fetch, play, cached);
      var prepared := PrepareSpeech(apiKey, cacheDirectory, personaId, text);
      var lookup := LookupPath(cacheDirectory, personaId, text);
      var freshOk := prepared.Ok? && fetch(prepared.value).Ok? && play(prepared.value.path).Ok?;
      var firstError := if prepared.Err? then prepared.error
                        else if fetch(prepared.value).Err? then fetch(prepared.value).error
                        else if play(prepared.value.path).Err? then play(prepared.value.path).error
                        else "";
      && (freshOk ==> r == Played(lookup, false))
      && (!freshOk && lookup !in cached ==> r == PlaybackFailed(firstError))
      && (!freshOk && lookup in cached && play(lookup).Ok? ==> r == Played(lookup, true))
      && (!freshOk && lookup in cached && play(lookup).Err? ==> r == PlaybackFailed(play(lookup).error))
  {
  }

  /* ---------- The player registry ---------- */

  /** An audio player; `pauseThrows` and `removeThrows` say whether its `pause` and `remove` throw. */
  class Player {
    const pauseThrows: bool
    const removeThrows: bool
    var playing: bool
    var removed: bool

    constructor(pauseThrows: bool, removeThrows: bool)
      ensures this.pauseThrows == pauseThrows && this.removeThrows == removeThrows
      ensures !playing && !removed
    {
      this.pauseThrows := pauseThrows;
      this.removeThrows := removeThrows;
      playing := false;
      removed := false;
    }

    method Play()
      modifies this
      ensures playing && removed == old(removed)
    {
      playing := true;
    }

    /** `pause`: stops playback, or throws (reported in `threw`) leaving the player as it was. */
    method Pause() returns (threw: bool)
      modifies this
      ensures threw == pauseThrows
      ensures !threw ==> !playing
      ensures threw ==> playing == old(playing)
      ensures removed == old(removed)
    {
      threw := pauseThrows;
      if !threw {
        playing := false;
      }
    }

    /** `remove`: releases the player, or throws (reported in `threw`) leaving it as it was. */
    method Remove() returns (threw: bool)
      modifies this
      ensures threw == removeThrows
      ensures !threw ==> removed && !playing
      ensures threw ==> removed == old(removed) && playing == old(playing)
    {
      threw := removeThrows;
      if !threw {
        removed := true;
        playing := false;
      }
    }
  }

  /**
   * Where the `try` of `playGreetingClip` stops: it runs to the end, or the player's creation,
   * the finish listener's registration, `play` or the analytics call throws.
   */
  datatype GreetingStart = Started | CreateThrows | ListenerThrows | PlayThrows | TrackThrows

  /** The module-level `activePlayers` set. */
  class PlayerRegistry {
    var active: set<Player>

    constructor()
      ensures active == {}
    {
      active := {};
    }

    /**
     * `stopAllAudio`: each registered player is paused and then removed inside one `try`; a
     * player whose `pause` throws is left as it was, one whose `remove` throws is left paused
     * but not removed, and neither stops the others; the registry ends empty.
     */
    method StopAll()
      modifies this, active
      ensures active == {}
      ensures forall p :: p in old(active) && !p.pauseThrows && !p.removeThrows ==> !p.playing && p.removed
      ensures forall p :: p in old(active) && !p.pauseThrows && p.removeThrows ==> !p.playing && p.removed == old(p.removed)
      ensures forall p :: p in old(active) && p.pauseThrows ==> p.playing == old(p.playing) && p.removed == old(p.removed)
    {
      var remaining := active;
      while remaining != {}
        invariant remaining <= old(active) && active == old(active)
        invariant forall p :: p in old(active) - remaining && !p.pauseThrows && !p.removeThrows ==> !p.playing && p.removed
        invariant forall p :: p in old(active) - remaining && !p.pauseThrows && p.removeThrows ==> !p.playing && p.removed == old(p.removed)
        invariant forall p :: p in old(active) - remaining && p.pauseThrows ==> p.playing == old(p.playing) && p.removed == old(p.removed)
        invariant forall p :: p in remaining ==> p.playing == old(p.playing) && p.removed == old(p.removed)
        decreases remaining
      {
        var p :| p in remaining;
        var threw := p.Pause();
        if !threw {
          threw := p.Remove();
        }
        remaining := remaining - {p};
      }
      active := {};
    }

    /**
     * `playGreetingClip`: with a bundled, non-zero clip id for the persona, a new player is
     * created, registered, given its finish listener and started. Without a clip id the result
     * is null and nothing is created. A throw inside the `try` also gives null: from the player's
     * creation, with the registry unchanged; from the listener or `play`, with the new player
     * registered but silent; from the analytics call, with the new player registered and
     * playing. `created` names the player made, if any; `pauseThrows` and `removeThrows` say
     * how the player the platform creates behaves when later paused or removed.
     */
    method PlayGreetingClip(personaId: string, clips: map<string, int>, start: GreetingStart,
                            pauseThrows: bool, removeThrows: bool)
      returns (player: Option<Player>, ghost created: Option<Player>)
      modifies this
      ensures personaId !in clips || clips[personaId] == 0 || start == CreateThrows ==>
        player.None? && created.None? && active == old(active)
      ensures personaId in clips && clips[personaId] != 0 && start != CreateThrows ==>
        && created.Some? && fresh(created.value) && !created.value.removed
        && created.value.pauseThrows == pauseThrows && created.value.removeThrows == removeThrows
        && active == old(active) + {created.value}
        && created.value.playing == (start == Started || start == TrackThrows)
        && player == (if start == Started then created else None)
    {
      if personaId !in clips || clips[personaId] == 0 || start == CreateThrows {
        return None, None;
      }
      var p := new Player(pauseThrows, removeThrows);
      created := Some(p);
      active := active + {p};
      if start == ListenerThrows || start == PlayThrows {
        return None, created;
      }
      p.Play();
      if start == TrackThrows {
        return None, created;
      }
      player := Some(p);
    }

    /**
     * The stopper `playGreetingClip` returns: unregisters the player, then removes it; a
     * throwing `remove` escapes the stopper (reported in `threw`) after the unregistering.
     */
    method StopGreeting(player: Player) returns (threw: bool)
      modifies this, player
      ensures active == old(active) - {player}
      ensures threw == player.removeThrows
      ensures !threw ==> player.removed && !player.playing
      ensures threw ==> player.removed == old(player.removed) && player.playing == old(player.playing)
    {
      active := active - {player};
      threw := player.Remove();
    }

    /** The `didJustFinish` listener: a finished player leaves the registry. */
    method PlaybackFinished(player: Player)
      modifies this
      ensures active == old(active) - {player}
    {
      active := active - {player};
    }
  }
}
