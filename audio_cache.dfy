/// The persisted speech cache of utils/json2html.py: one combined clip per
/// word, stored in the `audio` directory under a file name derived from the
/// word alone and synthesized only when that file is absent; and the text the
/// combined clip speaks, shared with the inline (non-persisted) variant.
module AudioCache {
  import opened Common

  /** Python's `str.lower()` on one character, for the ASCII letters. */
  function LowerChar(c: char): char
  {
    if 'A' <= c <= 'Z' then (c as int + 32) as char else c
  }

  /** `s.replace(from, to)` for single characters. */
  function Replace(s: string, from: char, to: char): (r: string)
    ensures |r| == |s|
    ensures forall i :: 0 <= i < |s| ==> r[i] == if s[i] == from then to else s[i]
  {
    if s == [] then [] else [if s[0] == from then to else s[0]] + Replace(s[1..], from, to)
  }

  /** `s.lower()`. */
  function Lower(s: string): (r: string)
    ensures |r| == |s|
    ensures forall i :: 0 <= i < |s| ==> r[i] == LowerChar(s[i])
  {
    if s == [] then [] else [LowerChar(s[0])] + Lower(s[1..])
  }

  /** The file-system key of a word: spaces become underscores, letters lower case. */
  function Slug(word: string): (r: string)
    ensures |r| == |word|
    ensures forall i :: 0 <= i < |word| ==> r[i] == if word[i] == ' ' then '_' else LowerChar(word[i])
  {
    Lower(Replace(word, ' ', '_'))
  }

  /** The name of the persisted combined clip: `{slug}.mp3`. */
  function PersistedName(word: string): (r: string)
    ensures |r| == |word| + 4 && r[..|word|] == Slug(word) && r[|word|..] == ".mp3"
  {
    Slug(word) + ".mp3"
  }

  /** The pause marker the engine reads as silence. */
  const Pause: string := ". . . "

  /** The text of the combined clip: the three texts with a pause between them. */
  function CombinedText(word: string, meaning: string, phrase: string): (r: string)
    ensures |r| == |word| + |meaning| + |phrase| + 2 * |Pause|
    ensures r[..|word|] == word && r[|word|..|word| + |Pause|] == Pause
    ensures r[|word| + |Pause|..|word| + |Pause| + |meaning|] == meaning
    ensures r[|r| - |phrase| - |Pause|..|r| - |phrase|] == Pause && r[|r| - |phrase|..] == phrase
  {
    word + Pause + meaning + Pause + phrase
  }

  /** A text that is already a slug: no space and no upper-case letter. */
  predicate Normalised(s: string)
  {
    forall i :: 0 <= i < |s| ==> s[i] != ' ' && !('A' <= s[i] <= 'Z')
  }

  /** A slug is normalised and as long as the word; a word is its own slug
      exactly when it is already normalised. */
  lemma SlugNormalises(word: string)
    ensures |Slug(word)| == |word| && Normalised(Slug(word))
    ensures Slug(word) == word <==> Normalised(word)
  {
    var s := Slug(word);
    if Normalised(word) {
      assert forall i :: 0 <= i < |word| ==> s[i] == word[i];
    }
    if s == word {
      forall i | 0 <= i < |word| ensures word[i] != ' ' && !('A' <= word[i] <= 'Z') {
        assert s[i] == word[i];
      }
    }
  }

  /** Normalising twice is normalising once. */
  lemma SlugIdempotent(word: string)
    ensures Slug(Slug(word)) == Slug(word)
  {
    SlugNormalises(word);
    SlugNormalises(Slug(word));
  }

  /** Two words share a persisted file exactly when they share a slug. */
  lemma SameFileIffSameSlug(w1: string, w2: string)
    ensures PersistedName(w1) == PersistedName(w2) <==> Slug(w1) == Slug(w2)
  {
    if PersistedName(w1) == PersistedName(w2) {
      var n := PersistedName(w1);
      assert Slug(w1) == n[..|n| - 4];
      assert Slug(w2) == n[..|n| - 4];
    }
  }

  /** The longest file name, in bytes, the file system takes (`NAME_MAX` of
      ext4 and most Linux file systems). */
  const NameMax: nat := 255

  /** The number of bytes of one character in UTF-8, the encoding Python
      uses for file names on Linux. */
  function Utf8Size(c: char): (r: nat)
    ensures 1 <= r <= 4
    ensures r == 1 <==> c as int < 0x80
  {
    if c as int < 0x80 then 1 else if c as int < 0x800 then 2 else if c as int < 0x10000 then 3 else 4
  }

  /** The length of a name in UTF-8 bytes. */
  function Utf8Length(s: string): (r: nat)
    ensures |s| <= r <= 4 * |s|
  {
    if s == [] then 0 else Utf8Size(s[0]) + Utf8Length(s[1..])
  }

  /** A name the model lets the `audio` directory hold as a plain file. A NUL
      is refused by the system, and so is a name longer than `NameMax` bytes:
      `open` raises and the save fails. A `/` would address a path outside the
      flat directory (an absolute path, or a sub-directory), which the model
      does not hold: it takes writing such a name as a failed save. */
  predicate Storable(name: string)
  {
    '/' !in name && '\0' !in name && Utf8Length(name) <= NameMax
  }

  /** A word of 252 characters or more gives a name of over 255 bytes, with
      `.mp3`: the cache cannot save it, synthesizes to no file and returns None. */
  lemma LongWordNotCached(files: map<string, Clip>, word: string, meaning: string, phrase: string, o: Oracles)
    requires |word| >= 252 && PersistedName(word) !in files
    ensures !Storable(PersistedName(word))
    ensures CacheStep(files, word, meaning, phrase, o) == (None, files)
  {
    assert Utf8Length(PersistedName(word)) >= |PersistedName(word)| == |word| + 4;
  }

  /** One call of the persisted cache on the directory contents `files`
      (file name to bytes): the returned file name, or None, and the new contents.
      The file is looked up by the word's name alone; only when it is missing is
      the combined text synthesized and written. */
  function CacheStep(files: map<string, Clip>, word: string, meaning: string, phrase: string, o: Oracles)
    : (r: (Option<string>, map<string, Clip>))
    ensures r.0 == None || r.0 == Some(PersistedName(word))
    ensures r.0.Some? <==> PersistedName(word) in r.1
    ensures PersistedName(word) in files ==> r == (Some(PersistedName(word)), files)
    ensures PersistedName(word) !in files ==>
              (r.0.Some? <==> Storable(PersistedName(word)) && o.synth(CombinedText(word, meaning, phrase)).Some?)
    ensures r.0.Some? && PersistedName(word) !in files ==>
              r.1[PersistedName(word)] == o.synth(CombinedText(word, meaning, phrase)).value
    ensures forall k :: k in files ==> k in r.1 && r.1[k] == files[k]
    ensures r.1.Keys <= files.Keys + {PersistedName(word)}
  {
    var name := PersistedName(word);
    if name in files then (Some(name), files)
    else if !Storable(name) then (None, files)
    else
      match o.synth(CombinedText(word, meaning, phrase))
      case None => (None, files)
      case Some(clip) => (Some(name), files[name := clip])
  }

  /** Once a word's file exists, any later call for the same word, whatever its
      meaning and phrase, returns the same name and leaves every file as it was. */
  lemma CacheKeyedByWordOnly(files: map<string, Clip>, word: string, m1: string, p1: string,
                             m2: string, p2: string, o: Oracles)
    requires CacheStep(files, word, m1, p1, o).0.Some?
    ensures var (r1, f1) := CacheStep(files, word, m1, p1, o);
            CacheStep(f1, word, m2, p2, o) == (r1, f1)
  {
  }

  /** Words whose slugs coincide ("Big Apple", "big_apple") share one file:
      the second is served the first one's clip. */
  lemma CollidingWordsShareFile(files: map<string, Clip>, w1: string, w2: string, m1: string, p1: string,
                                m2: string, p2: string, o: Oracles)
    requires Slug(w1) == Slug(w2)
    requires CacheStep(files, w1, m1, p1, o).0.Some?
    ensures var (r1, f1) := CacheStep(files, w1, m1, p1, o);
            CacheStep(f1, w2, m2, p2, o) == (r1, f1)
  {
    SameFileIffSameSlug(w1, w2);
  }

  /** The `audio` directory: whether it exists, and the files in it. */
  class AudioStore {
    var dirExists: bool
    var files: map<string, Clip>

    ghost predicate Valid()
      reads this
    {
      (files != map[] ==> dirExists) && forall k :: k in files ==> Storable(k)
    }

    constructor (dirExists: bool, files: map<string, Clip>)
      requires files != map[] ==> dirExists
      requires forall k :: k in files ==> Storable(k)
      ensures Valid()
      ensures this.dirExists == dirExists && this.files == files
    {
      this.dirExists := dirExists;
      this.files := files;
    }

    /** Creates the directory when it does not exist. */
    method MakeDirectory()
      requires Valid()
      modifies this
      ensures Valid()
      ensures dirExists && files == old(files)
    {
      if !dirExists {
        dirExists := true;
      }
    }

    /** `generate_combined_audio_file`: the persisted clip's file name, or None
        when the clip is missing and could not be synthesized or written. */
    method GenerateCombinedAudioFile(word: string, meaning: string, phrase: string, o: Oracles)
      returns (filename: Option<string>)
      requires Valid()
      modifies this
      ensures Valid() && dirExists
      ensures (filename, files) == CacheStep(old(files), word, meaning, phrase, o)
    {
      MakeDirectory();
      var name := Slug(word) + ".mp3";
      var text := CombinedText(word, meaning, phrase);
      if name !in files {
        if !Storable(name) {
          return None;
        }
        var clip := o.synth(text);
        if clip.None? {
          return None;
        }
        files := files[name := clip.value];
      }
      return Some(name);
    }
  }
}
