/**
 * The persona catalogue and the text built from a persona: the preface put before the
 * user's question, the rewrite prompt, and the voice and avatar settings. A persona id is
 * any string here, so that the fallback to the first catalogue entry for an unknown id is
 * part of the model.
 */
module Personas {
  import opened Wrappers
  import opened Strings

  datatype TtsConfig = TtsConfig(voiceId: string, stability: real, similarityBoost: real, style: real)

  datatype Persona = Persona(
    id: string,
    name: string,
    avatar: string,
    tts: TtsConfig,
    preface: string,
    rewrite: string)

  /**
   * The published catalogue, in order; its first entry is the fallback persona.
   * Long texts are written as concatenations of short pieces, which the solver handles far
   * more cheaply than one long literal.
   */
  const Catalogue: seq<Persona> := [
    Persona(
      "ava", "Artsy Ava", "public/avatars/ava.png",
      TtsConfig("MF3mGyEYCl7XYWbV9V6O", 0.7, 0.8, 0.6),
      "Context: Art/design " + "curator. Prioritize " + "galleries, design " +
      "shops, contemplative " + "spaces. Keep Yelp facts " + "intact.",
      "Rewrite in Ava's soft " + "curator tone. Quiet " + "enthusiasm, one " +
      "reflective line, then " + "actions. Keep all " + "business names and " +
      "details verbatim."),
    Persona(
      "barry", "Barry Broadway", "public/avatars/barry.png",
      TtsConfig("TxGEqnHWrfWFTfGW9XjX", 0.6, 0.75, 0.85),
      "Context: Theater-first " + "guide. Prioritize " + "shows, pre/post-theater " +
      "dining, dramatic flair. " + "Keep Yelp facts intact.",
      "Rewrite in Barry's " + "theatrical tone. Big " + "opening line, then 2-3 " +
      "steps. Keep all " + "business names and " + "details verbatim."),
    Persona(
      "bella", "Bookish Bella", "public/avatars/bella.png",
      TtsConfig("pMsXgVXv3BLzUgSXRplE", 0.75, 0.8, 0.5),
      "Context: Quiet, bookish " + "experiences. Prioritize " + "bookstores, calm cafes, " +
      "reflective spaces. Keep " + "Yelp facts intact.",
      "Rewrite in Bella's " + "gentle tone. Warm " + "reassurance, then " +
      "actions. Keep all " + "business names and " + "details verbatim."),
    Persona(
      "francesca", "Francesca the Foodie", "public/avatars/francesca.png",
      TtsConfig("pNInz6obpgDQGcFmaJgB", 0.7, 0.8, 0.5),
      "Context: You are a " + "sophisticated British " + "food critic. Prioritize " +
      "chef-driven dining, " + "pairings, provenance. " + "Keep Yelp facts intact.",
      "Rewrite in Francesca's " + "refined voice. One hook " + "line, then 2-3 clear " +
      "actions. No emojis. " + "Keep all business names " + "and details verbatim."),
    Persona(
      "lauren", "Luxury Lauren", "public/avatars/lauren.png",
      TtsConfig("XB0fDUnXU5powFXDhCwa", 0.65, 0.75, 0.65),
      "Context: Luxury host. " + "Prioritize premium " + "dining, art house " +
      "luxury, elevated " + "service. Keep Yelp " + "facts intact.",
      "Rewrite in Lauren's " + "polished tone. Refined, " + "minimal hype, then " +
      "actions. Keep all " + "business names and " + "details verbatim."),
    Persona(
      "maxine", "Marathon Maxine", "public/avatars/maxine.png",
      TtsConfig("2EiwWnXFnvU5JabPnv8n", 0.65, 0.75, 0.8),
      "Context: Active " + "itineraries. Prioritize " + "movement, recovery, " +
      "healthy refuels. Keep " + "Yelp facts intact.",
      "Rewrite in Maxine's " + "coach tone. Direct, " + "energetic, short " +
      "sentences. One hook, " + "then actions. Keep all " + "business names and " +
      "details verbatim."),
    Persona(
      "nora", "Nora Nightlife", "public/avatars/nora.png",
      TtsConfig("21m00Tcm4TlvDq8ikWAM", 0.65, 0.8, 0.8),
      "Context: Insider " + "nightlife guide. " + "Prioritize speakeasies, " +
      "late-night eats, " + "progressive evening " + "flows. Keep Yelp facts " + "intact.",
      "Rewrite in Nora's " + "sultry insider tone. " + "Mention secret details " +
      "or timing. One hook " + "line, then actions. " + "Keep all business names " +
      "and details verbatim."),
    Persona(
      "pete", "Pizza Pete", "public/avatars/pete.png",
      TtsConfig("VR6AewLTigWG4xSOukaG", 0.7, 0.8, 0.75),
      "Context: Pizza " + "education and NYC " + "pride. Prioritize " + "iconic slices, " +
      "contrasting styles, " + "quick flows. Keep Yelp " + "facts intact.",
      "Rewrite in Pete's " + "animated NYC tone. One " + "bold line, then " +
      "actions. Keep all " + "business names and " + "details verbatim."),
    Persona(
      "sam", "Street Food Sam", "public/avatars/sam.png",
      TtsConfig("ErXwobaYiN019PkySvjV", 0.7, 0.75, 0.55),
      "Context: Neighborhood " + "eats and value. " + "Prioritize authentic, " +
      "affordable spots. Keep " + "Yelp facts intact.",
      "Rewrite in Sam's casual " + "NYC tone. " + "Conversational, " +
      "budget-aware. One hook, " + "then actions. Keep all " + "business names and " +
      "details verbatim."),
    Persona(
      "willa", "Willa the Wanderer", "public/avatars/willa.png",
      TtsConfig("EXAVITQu4vr4xnSDxMaL", 0.75, 0.8, 0.5),
      "Context: Cozy daytime " + "guide. Prioritize " + "coffee, markets, parks, " +
      "slow mornings. Keep " + "Yelp facts intact.",
      "Rewrite in Willa's warm " + "sensory tone. Paint " + "light/texture, keep it " +
      "calm. One hook line, " + "then actions. Keep all " + "business names and " +
      "details verbatim.")
  ]

  predicate DistinctIds(ps: seq<Persona>) {
    forall i, j :: 0 <= i < j < |ps| ==> ps[i].id != ps[j].id
  }

  const CatalogueIds := ["ava", "barry", "bella", "francesca", "lauren", "maxine", "nora", "pete", "sam", "willa"]

  lemma CatalogueIdsInOrder()
    ensures |Catalogue| == |CatalogueIds|
    ensures forall i :: 0 <= i < |Catalogue| ==> Catalogue[i].id == CatalogueIds[i]
  {
  }

  /** No persona id is repeated in the catalogue. */
  lemma CatalogueDistinct()
    ensures DistinctIds(Catalogue)
  {
    CatalogueIdsInOrder();
    assert forall i, j :: 0 <= i < j < |CatalogueIds| ==> CatalogueIds[i] != CatalogueIds[j];
  }

  /** `PERSONA_BY_ID`: the catalogue folded into a table, each entry stored under its id. */
  function IndexById(ps: seq<Persona>): map<string, Persona> {
    if ps == [] then map[] else IndexById(ps[..|ps| - 1])[ps[|ps| - 1].id := ps[|ps| - 1]]
  }

  /** The table holds exactly the ids of the list. */
  lemma {:induction false} IndexByIdKeys(ps: seq<Persona>, id: string)
    ensures id in IndexById(ps) <==> exists i :: 0 <= i < |ps| && ps[i].id == id
  {
    if ps != [] {
      var front := ps[..|ps| - 1];
      IndexByIdKeys(front, id);
      if id in IndexById(front) {
        var i :| 0 <= i < |front| && front[i].id == id;
        assert ps[i].id == id;
      }
      if exists i :: 0 <= i < |ps| && ps[i].id == id {
        var i :| 0 <= i < |ps| && ps[i].id == id;
        if i < |front| { assert front[i].id == id; }
      }
    }
  }

  /** With distinct ids, the table maps each id to its own entry. */
  lemma {:induction false} IndexByIdEntry(ps: seq<Persona>, i: nat)
    requires DistinctIds(ps) && i < |ps|
    ensures ps[i].id in IndexById(ps) && IndexById(ps)[ps[i].id] == ps[i]
  {
    var front := ps[..|ps| - 1];
    if i < |front| {
      assert DistinctIds(front);
      IndexByIdEntry(front, i);
      assert ps[i].id != ps[|ps| - 1].id;
    }
  }

  /** Every value in the table is an entry of the list. */
  lemma {:induction false} IndexByIdValues(ps: seq<Persona>, id: string)
    requires id in IndexById(ps)
    ensures IndexById(ps)[id] in ps
  {
    var front := ps[..|ps| - 1];
    if id != ps[|ps| - 1].id {
      IndexByIdValues(front, id);
    }
  }

  /** `getPersona`: the catalogue entry for the id, else the first entry. */
  function GetPersona(id: string): Persona {
    var table := IndexById(Catalogue);
    if id in table then table[id] else Catalogue[0]
  }

  /** A known id gets its own catalogue entry. */
  lemma GetPersonaKnown(i: nat)
    requires i < |Catalogue|
    ensures GetPersona(Catalogue[i].id) == Catalogue[i]
  {
    CatalogueDistinct();
    IndexByIdEntry(Catalogue, i);
  }

  /** An unknown id gets the first catalogue entry. */
  lemma GetPersonaFallback(id: string)
    requires forall i :: 0 <= i < |Catalogue| ==> Catalogue[i].id != id
    ensures GetPersona(id) == Catalogue[0]
  {
    IndexByIdKeys(Catalogue, id);
  }

  /** Whatever the id, the persona comes from the catalogue. */
  lemma GetPersonaInCatalogue(id: string)
    ensures GetPersona(id) in Catalogue
  {
    if id in IndexById(Catalogue) {
      IndexByIdValues(Catalogue, id);
    }
  }

  /** `buildPrefacedQuery`: the persona's preface, a blank line, then the user's question. */
  function BuildPrefacedQuery(personaId: string, userQuery: string): string {
    GetPersona(personaId).preface + "\n\nUser: " + userQuery
  }

  /**
   * Read line by line, a prefaced single-line question is the lines of the preface, a
   * blank line, and the question after "User: ".
   */
  lemma PrefacedQueryLines(personaId: string, userQuery: string)
    requires '\n' !in userQuery
    ensures Split(BuildPrefacedQuery(personaId, userQuery), '\n')
         == Split(GetPersona(personaId).preface, '\n') + ["", "User: " + userQuery]
  {
    var preface := GetPersona(personaId).preface;
    var last := "User: " + userQuery;
    assert '\n' !in last;
    assert BuildPrefacedQuery(personaId, userQuery) == preface + ['\n'] + ([] + ['\n'] + last);
    SplitAppend(preface, '\n', [] + ['\n'] + last);
    SplitAppend([], '\n', last);
    SplitWhole(last, '\n');
  }

  const ReservationHint := "Mention that at least " + "one spot is reservable " + "with one tap."

  const RewriteInstruction :=
    "Rewrite in character, " + "keep business names " + "and factual details " + "intact. " +
    "Keep it short " + "(2-3 sentences). " + "Wrap business names " + "in **double asterisks** " + "for bolding."

  /** Neither fixed line of the prompt spans several lines. */
  lemma FixedLinesSingle()
    ensures '\n' !in ReservationHint && '\n' !in RewriteInstruction
  {
    HintSingleLine();
    InstructionSingleLine();
  }

  lemma HintSingleLine()
    ensures '\n' !in ReservationHint
  {
  }

  lemma InstructionSingleLine()
    ensures '\n' !in RewriteInstruction
  {
  }

  /** The lines of the rewrite prompt, in order. */
  function PromptLines(personaId: string, originalQuery: string, yelpResponseText: string, hasReservableSpot: bool): seq<string> {
    [ GetPersona(personaId).rewrite,
      if hasReservableSpot then ReservationHint else "",
      "",
      "Original query: " + originalQuery,
      "Yelp response: " + yelpResponseText,
      "",
      RewriteInstruction ]
  }

  /** `buildRewritePrompt`; a caller that omits the last argument passes false. */
  function BuildRewritePrompt(personaId: string, originalQuery: string, yelpResponseText: string, hasReservableSpot: bool): string {
    Join(PromptLines(personaId, originalQuery, yelpResponseText, hasReservableSpot), "\n")
  }

  /**
   * Read line by line, the prompt is the persona's rewrite instruction, then the hint line,
   * a blank line, the question, the response, a blank line and the fixed instruction,
   * when the question and the response are single lines.
   */
  lemma RewritePromptLines(personaId: string, originalQuery: string, yelpResponseText: string, hasReservableSpot: bool)
    requires '\n' !in originalQuery && '\n' !in yelpResponseText
    ensures var lines := PromptLines(personaId, originalQuery, yelpResponseText, hasReservableSpot);
      Split(BuildRewritePrompt(personaId, originalQuery, yelpResponseText, hasReservableSpot), '\n')
        == Split(GetPersona(personaId).rewrite, '\n') + lines[1..]
  {
    var lines := PromptLines(personaId, originalQuery, yelpResponseText, hasReservableSpot);
    FixedLinesSingle();
    assert forall i :: 1 <= i < |lines| ==> '\n' !in lines[i];
    SplitJoin(lines, '\n');
  }

  /** The second line carries the reservation hint exactly when a spot is reservable, and is empty otherwise. */
  lemma RewritePromptHint(personaId: string, originalQuery: string, yelpResponseText: string, hasReservableSpot: bool)
    ensures var line := PromptLines(personaId, originalQuery, yelpResponseText, hasReservableSpot)[1];
      (hasReservableSpot <==> line != "") && (hasReservableSpot ==> line == ReservationHint)
  {
  }

  /** `getTTSConfig`. */
  function GetTtsConfig(personaId: string): TtsConfig {
    GetPersona(personaId).tts
  }

  /** `getAvatar`. */
  function GetAvatar(personaId: string): string {
    GetPersona(personaId).avatar
  }

  /** The voice settings and the avatar are those of the catalogue entry for the id, or of the first entry. */
  lemma PersonaSettings(id: string, i: nat)
    requires i < |Catalogue|
    ensures Catalogue[i].id == id ==> GetTtsConfig(id) == Catalogue[i].tts && GetAvatar(id) == Catalogue[i].avatar
    ensures (forall k :: 0 <= k < |Catalogue| ==> Catalogue[k].id != id) ==>
      GetTtsConfig(id) == Catalogue[0].tts && GetAvatar(id) == Catalogue[0].avatar
  {
    if Catalogue[i].id == id {
      GetPersonaKnown(i);
    }
    if forall k :: 0 <= k < |Catalogue| ==> Catalogue[k].id != id {
      GetPersonaFallback(id);
    }
  }
}
