/// The card document of `json_to_vocabulary_html` (utils/json2html.py), as a
/// structure: the three texts, the element ids derived from truncated digests,
/// the four playback controls, and one hidden audio element per clip that was
/// synthesized, in the order combined, word, meaning, phrase.
module CardBuilder {
  import opened Common
  import AudioCache

  /** The four audio roles of a card. */
  datatype Role = Combined | Word | Meaning | Phrase

  /** The position of a role in the document. */
  function Rank(role: Role): nat
  {
    match role
    case Combined => 0
    case Word => 1
    case Meaning => 2
    case Phrase => 3
  }

  /** The prefixes of the element ids. */
  const CombinedPrefix: string := "combined_audio_"
  const WordPrefix: string := "word_audio_"
  const MeaningPrefix: string := "meaning_audio_"
  const PhrasePrefix: string := "phrase_audio_"

  function IdPrefix(role: Role): string
  {
    match role
    case Combined => CombinedPrefix
    case Word => WordPrefix
    case Meaning => MeaningPrefix
    case Phrase => PhrasePrefix
  }

  /** `hexdigest()[:8]`: the first eight characters of a digest, or all of a shorter one. */
  function Head8(d: string): (r: string)
    ensures |r| == (if |d| < 8 then |d| else 8)
    ensures r <= d
  {
    if |d| <= 8 then d else d[..8]
  }

  /** The id of a role's audio element: its prefix and the truncated digest of `text`. */
  function ElementId(role: Role, text: string, o: Oracles): string
  {
    IdPrefix(role) + Head8(o.digest(text))
  }

  datatype Ids = Ids(combined: string, word: string, meaning: string, phrase: string)

  function IdOf(ids: Ids, role: Role): string
  {
    match role
    case Combined => ids.combined
    case Word => ids.word
    case Meaning => ids.meaning
    case Phrase => ids.phrase
  }

  /** The ids of a card: the combined and word roles both digest the word. */
  function MakeIds(word: string, meaning: string, phrase: string, o: Oracles): Ids
  {
    Ids(ElementId(Combined, word, o), ElementId(Word, word, o),
        ElementId(Meaning, meaning, o), ElementId(Phrase, phrase, o))
  }

  /** The text a role's clip speaks. */
  function ClipText(word: string, meaning: string, phrase: string, role: Role): string
  {
    match role
    case Combined => AudioCache.CombinedText(word, meaning, phrase)
    case Word => word
    case Meaning => meaning
    case Phrase => phrase
  }

  datatype AudioElement = AudioElement(role: Role, id: string, clip: Clip)

  /** A button: "Play All" runs the sequence, the others play one element by id. */
  datatype Control = PlayAll | PlayOne(target: string)

  datatype Card = Card(word: string, meaning: string, phrase: string, ids: Ids,
                       controls: seq<Control>, audios: seq<AudioElement>)

  /** What `json_to_vocabulary_html` returns: the empty string, or a card. */
  datatype Page = Blank | Document(card: Card)

  /** `.encode()` applied to a value that is not a string raises: the key whose value it was. */
  datatype BuildError = NotAString(key: string)

  /** The hidden element for a role, when its clip was synthesized. */
  function Element(role: Role, id: string, clip: Option<Clip>): seq<AudioElement>
  {
    if clip.Some? then [AudioElement(role, id, clip.value)] else []
  }

  /** The buttons, always all four. */
  function Controls(ids: Ids): seq<Control>
  {
    [PlayAll, PlayOne(ids.word), PlayOne(ids.meaning), PlayOne(ids.phrase)]
  }

  /** The card for three texts: every synthesized clip gets an element carrying
      its role's id, in role order; a failed clip gets none (see `CardAudios`). */
  function RenderCard(word: string, meaning: string, phrase: string, o: Oracles): (c: Card)
    ensures c.word == word && c.meaning == meaning && c.phrase == phrase
    ensures c.ids == MakeIds(word, meaning, phrase, o)
    ensures |c.controls| == 4 && c.controls[0] == PlayAll
    ensures forall role :: role != Combined ==> c.controls[Rank(role)] == PlayOne(IdOf(c.ids, role))
  {
    var ids := MakeIds(word, meaning, phrase, o);
    var audios := Elements(ids, o.synth(AudioCache.CombinedText(word, meaning, phrase)),
                           o.synth(word), o.synth(meaning), o.synth(phrase));
    Card(word, meaning, phrase, ids, Controls(ids), audios)
  }

  /** The hidden elements for the four clips, in document order. */
  function Elements(ids: Ids, combined: Option<Clip>, word: Option<Clip>,
                    meaning: Option<Clip>, phrase: Option<Clip>): seq<AudioElement>
  {
    Element(Combined, ids.combined, combined) + Element(Word, ids.word, word) +
    Element(Meaning, ids.meaning, meaning) + Element(Phrase, ids.phrase, phrase)
  }

  /** Elements in strictly increasing role order. */
  predicate InRoleOrder(s: seq<AudioElement>)
  {
    forall i, j :: 0 <= i < j < |s| ==> Rank(s[i].role) < Rank(s[j].role)
  }

  /** Every element of `s` has a role ranked below `bound`. */
  predicate RanksBelow(s: seq<AudioElement>, bound: nat)
  {
    forall i :: 0 <= i < |s| ==> Rank(s[i].role) < bound
  }

  /** Appending at most one element of the next rank keeps the order. */
  lemma AppendInRoleOrder(s: seq<AudioElement>, t: seq<AudioElement>, bound: nat)
    requires InRoleOrder(s) && RanksBelow(s, bound)
    requires |t| <= 1 && forall i :: 0 <= i < |t| ==> Rank(t[i].role) == bound
    ensures InRoleOrder(s + t) && RanksBelow(s + t, bound + 1)
  {
    var u := s + t;
    forall i, j | 0 <= i < j < |u| ensures Rank(u[i].role) < Rank(u[j].role) {
      assert u[i] == s[i];
      if j >= |s| {
        assert u[j] == t[j - |s|];
      } else {
        assert u[j] == s[j];
      }
    }
    forall i | 0 <= i < |u| ensures Rank(u[i].role) < bound + 1 {
      if i < |s| {
        assert u[i] == s[i];
      } else {
        assert u[i] == t[i - |s|];
      }
    }
  }

  /** The element of the first role is in role order and below the next rank. */
  lemma FirstElement(role: Role, id: string, clip: Option<Clip>)
    requires Rank(role) == 0
    ensures InRoleOrder(Element(role, id, clip)) && RanksBelow(Element(role, id, clip), 1)
  {
  }

  /** The element of the next role appended after those of the earlier ones. */
  lemma NextElement(s: seq<AudioElement>, role: Role, id: string, clip: Option<Clip>)
    requires InRoleOrder(s) && RanksBelow(s, Rank(role))
    ensures InRoleOrder(s + Element(role, id, clip)) && RanksBelow(s + Element(role, id, clip), Rank(role) + 1)
  {
    AppendInRoleOrder(s, Element(role, id, clip), Rank(role));
  }

  /** Whichever clips exist, their elements come in role order. */
  lemma ElementsInRoleOrder(ids: Ids, combined: Option<Clip>, word: Option<Clip>,
                            meaning: Option<Clip>, phrase: Option<Clip>)
    ensures InRoleOrder(Elements(ids, combined, word, meaning, phrase))
  {
    var a := Element(Combined, ids.combined, combined);
    var b := Element(Word, ids.word, word);
    var m := Element(Meaning, ids.meaning, meaning);
    FirstElement(Combined, ids.combined, combined);
    NextElement(a, Word, ids.word, word);
    NextElement(a + b, Meaning, ids.meaning, meaning);
    NextElement(a + b + m, Phrase, ids.phrase, phrase);
  }

  /** The elements of a card, role by role. */
  lemma CardAudiosSplit(word: string, meaning: string, phrase: string, o: Oracles)
    ensures var c := RenderCard(word, meaning, phrase, o);
            forall e :: e in c.audios <==>
              exists role :: o.synth(ClipText(word, meaning, phrase, role)).Some? &&
                             e == AudioElement(role, IdOf(c.ids, role), o.synth(ClipText(word, meaning, phrase, role)).value)
  {
    var c := RenderCard(word, meaning, phrase, o);
    var ids := c.ids;
    var a := Element(Combined, ids.combined, o.synth(ClipText(word, meaning, phrase, Combined)));
    var b := Element(Word, ids.word, o.synth(ClipText(word, meaning, phrase, Word)));
    var m := Element(Meaning, ids.meaning, o.synth(ClipText(word, meaning, phrase, Meaning)));
    var p := Element(Phrase, ids.phrase, o.synth(ClipText(word, meaning, phrase, Phrase)));
    assert c.audios == a + b + m + p;
    forall e ensures e in c.audios <==> e in a || e in b || e in m || e in p {
    }
  }

  /** The audio elements of a card: one for a role exactly when its clip was
      synthesized, each carrying its role's id and that clip. */
  lemma CardAudios(word: string, meaning: string, phrase: string, o: Oracles)
    ensures var c := RenderCard(word, meaning, phrase, o);
            forall role :: (exists e :: e in c.audios && e.role == role) <==>
                           o.synth(ClipText(word, meaning, phrase, role)).Some?
    ensures var c := RenderCard(word, meaning, phrase, o);
            forall e :: e in c.audios ==>
              e.id == IdOf(c.ids, e.role) && o.synth(ClipText(word, meaning, phrase, e.role)) == Some(e.clip)
  {
    var c := RenderCard(word, meaning, phrase, o);
    CardAudiosSplit(word, meaning, phrase, o);
    forall role | o.synth(ClipText(word, meaning, phrase, role)).Some?
      ensures exists e :: e in c.audios && e.role == role
    {
      var e := AudioElement(role, IdOf(c.ids, role), o.synth(ClipText(word, meaning, phrase, role)).value);
      assert e in c.audios;
    }
  }

  /** The audio elements of a card come in the order combined, word, meaning, phrase. */
  lemma CardAudiosInOrder(word: string, meaning: string, phrase: string, o: Oracles)
    ensures InRoleOrder(RenderCard(word, meaning, phrase, o).audios)
  {
    var ids := MakeIds(word, meaning, phrase, o);
    ElementsInRoleOrder(ids, o.synth(AudioCache.CombinedText(word, meaning, phrase)),
                        o.synth(word), o.synth(meaning), o.synth(phrase));
  }

  /** The ids of the elements a card holds: what `document.getElementById` finds. */
  function PresentIds(c: Card): set<string>
  {
    set e | e in c.audios :: e.id
  }

  /** `json_to_vocabulary_html` without its effect on the audio store: a
      non-dict renders blank; missing keys read as ""; a value that is not a
      string raises when its digest is taken (word first, then meaning, phrase). */
  function VocabularyPage(data: Json, o: Oracles): (r: Result<Page, BuildError>)
    ensures !data.Dict? ==> r == Ok(Blank)
    ensures r.Ok? && r.value.Document? ==>
              var c := r.value.card;
              data.Dict? &&
              Get(data.fields, "word", Str("")) == Str(c.word) &&
              Get(data.fields, "meaning", Str("")) == Str(c.meaning) &&
              Get(data.fields, "phrase", Str("")) == Str(c.phrase)
    ensures data.Dict? ==> (r.Err? <==> !Get(data.fields, "word", Str("")).Str? ||
                                        !Get(data.fields, "meaning", Str("")).Str? ||
                                        !Get(data.fields, "phrase", Str("")).Str?)
    ensures data.Dict? && r.Ok? ==>
              r.value == Document(RenderCard(Get(data.fields, "word", Str("")).s,
                                             Get(data.fields, "meaning", Str("")).s,
                                             Get(data.fields, "phrase", Str("")).s, o))
  {
    if !data.Dict? then Ok(Blank)
    else
      var word := Get(data.fields, "word", Str(""));
      var meaning := Get(data.fields, "meaning", Str(""));
      var phrase := Get(data.fields, "phrase", Str(""));
      if !word.Str? then Err(NotAString("word"))
      else if !meaning.Str? then Err(NotAString("meaning"))
      else if !phrase.Str? then Err(NotAString("phrase"))
      else Ok(Document(RenderCard(word.s, meaning.s, phrase.s, o)))
  }

  /** What one call of `json_to_vocabulary_html` leaves in the audio store: the
      persisted cache runs for every dict, on the str() of meaning and phrase;
      a word that is not a string makes its `.replace` raise inside the cache,
      which then writes nothing. */
  function StoreEffect(files: map<string, Clip>, data: Json, o: Oracles): (r: map<string, Clip>)
    ensures !data.Dict? || !Get(data.fields, "word", Str("")).Str? ==> r == files
    ensures forall k :: k in files ==> k in r && r[k] == files[k]
    ensures data.Dict? && Get(data.fields, "word", Str("")).Str? ==>
              r.Keys <= files.Keys + {AudioCache.PersistedName(Get(data.fields, "word", Str("")).s)}
  {
    if !data.Dict? then files
    else
      var word := Get(data.fields, "word", Str(""));
      if !word.Str? then files
      else AudioCache.CacheStep(files, word.s, Show(Get(data.fields, "meaning", Str("")), o),
                                Show(Get(data.fields, "phrase", Str("")), o), o).1
  }

  /** The four ids of a card are pairwise distinct whatever the texts and digests:
      their prefixes already differ in the first character. */
  lemma IdsDistinct(word: string, meaning: string, phrase: string, o: Oracles, r1: Role, r2: Role)
    requires r1 != r2
    ensures IdOf(MakeIds(word, meaning, phrase, o), r1) != IdOf(MakeIds(word, meaning, phrase, o), r2)
  {
    var ids := MakeIds(word, meaning, phrase, o);
    assert IdOf(ids, r1)[0] == IdPrefix(r1)[0];
    assert IdOf(ids, r2)[0] == IdPrefix(r2)[0];
  }

  /** The combined and word ids carry the same digest suffix and differ only by prefix. */
  lemma CombinedAndWordShareSuffix(word: string, meaning: string, phrase: string, o: Oracles)
    ensures var ids := MakeIds(word, meaning, phrase, o);
            ids.combined[|CombinedPrefix|..] == ids.word[|WordPrefix|..] == Head8(o.digest(word)) &&
            ids.combined != ids.word
  {
    IdsDistinct(word, meaning, phrase, o, Combined, Word);
  }

  /** The element looked up by a role's id is present exactly when that role's
      clip was synthesized, and it then holds that clip. */
  lemma PresentIffSynthesized(word: string, meaning: string, phrase: string, o: Oracles, role: Role)
    ensures var c := RenderCard(word, meaning, phrase, o);
            IdOf(c.ids, role) in PresentIds(c) <==> o.synth(ClipText(word, meaning, phrase, role)).Some?
    ensures var c := RenderCard(word, meaning, phrase, o);
            forall e :: e in c.audios && e.id == IdOf(c.ids, role) ==>
              o.synth(ClipText(word, meaning, phrase, role)) == Some(e.clip)
  {
    var c := RenderCard(word, meaning, phrase, o);
    CardAudios(word, meaning, phrase, o);
    forall e | e in c.audios && e.id == IdOf(c.ids, role)
      ensures e.role == role
    {
      if e.role != role {
        IdsDistinct(word, meaning, phrase, o, e.role, role);
      }
    }
    if o.synth(ClipText(word, meaning, phrase, role)).Some? {
      var e :| e in c.audios && e.role == role;
      assert e.id in PresentIds(c);
    }
  }

  /** When the engine fails for every text the card still shows the three texts
      and all four buttons, and holds no audio element. */
  lemma SilentCard(word: string, meaning: string, phrase: string, o: Oracles)
    requires forall t :: o.synth(t) == None
    ensures var c := RenderCard(word, meaning, phrase, o);
            c.audios == [] && PresentIds(c) == {} && |c.controls| == 4 &&
            c.word == word && c.meaning == meaning && c.phrase == phrase
  {
    CardAudios(word, meaning, phrase, o);
  }

  /** Both variants speak the same combined text, so with the engine taken as
      deterministic within one rendering (one text, one clip or one failure),
      the clip the persisted cache writes for a new word is the clip of the
      card's combined element. */
  lemma PersistedClipIsCombinedClip(files: map<string, Clip>, word: string, meaning: string, phrase: string,
                                    o: Oracles)
    requires AudioCache.PersistedName(word) !in files
    requires AudioCache.CacheStep(files, word, meaning, phrase, o).0.Some?
    ensures var c := RenderCard(word, meaning, phrase, o);
            exists e :: e in c.audios && e.role == Combined && e.id == c.ids.combined &&
                        e.clip == AudioCache.CacheStep(files, word, meaning, phrase, o).1[AudioCache.PersistedName(word)]
  {
    var c := RenderCard(word, meaning, phrase, o);
    CardAudios(word, meaning, phrase, o);
    var e :| e in c.audios && e.role == Combined;
    assert e.clip == AudioCache.CacheStep(files, word, meaning, phrase, o).1[AudioCache.PersistedName(word)];
  }

  /** `json_to_vocabulary_html`: runs the persisted cache (whose file name the
      page never uses), then renders the page. */
  method JsonToVocabularyHtml(store: AudioCache.AudioStore, data: Json, o: Oracles)
    returns (r: Result<Page, BuildError>)
    requires store.Valid()
    modifies store
    ensures store.Valid()
    ensures r == VocabularyPage(data, o)
    ensures store.files == StoreEffect(old(store.files), data, o)
    ensures store.dirExists == (old(store.dirExists) || data.Dict?)
  {
    if !data.Dict? {
      return Ok(Blank);
    }
    var word := Get(data.fields, "word", Str(""));
    var meaning := Get(data.fields, "meaning", Str(""));
    var phrase := Get(data.fields, "phrase", Str(""));
    if word.Str? {
      var _ := store.GenerateCombinedAudioFile(word.s, Show(meaning, o), Show(phrase, o), o);
    } else {
      store.MakeDirectory();
    }
    r := VocabularyPage(data, o);
  }
}
