# Daily vocabulary cards and viewer, in Dafny

A model of the two parts of the daily vocabulary server that carry its logic:

- **The card renderer** in `utils/json2html.py`:
  - the persisted, slug-keyed speech cache `generate_combined_audio_file`;
  - the card document of `json_to_vocabulary_html`: the three texts, element ids from a truncated digest, four buttons, and one hidden audio element per clip that was synthesized;
  - the playback script the card embeds (`playAudio`, `playSequentially`, `playIndividualSequence` with its `playNext`, `window.onload`);
  - the generic converter `json_to_simple_html` with its recursive `convert_value`.
- **The viewer** in `viewer.py`:
  - the digest `build_html_from_vocabulary`;
  - the standalone presenter `view_trigger_standalone`, which writes one page per entry and opens them in order with a pause between two of them;
  - the Streamlit presenter `view_trigger`, which embeds each page and pauses after every one.

Files:

- `common.dfy` holds the JSON values and `dict.get`. It also holds the collaborators the program calls but does not define, passed in as parameters: the speech engine (text to MP3 bytes, or nothing when it fails), the MD5 hex digest and Python's `str()` of a container.
- `audio_cache.dfy` models the cache. The `audio` directory is a class whose file map the cache method updates. The method is proved equal to a pure step function, and the cache's properties are proved about that function.
- `card_builder.dfy` models the card as a structure, with no HTML or CSS text.
- `playback.dfy` specifies the script by functions on a snapshot of the button flags, the status line and the current activity. The class `Player` performs the same steps on arrays of button flags, with the script's loops, and is proved to agree with those functions.
- `simple_html.dfy` holds the converter. Its recursive functions are proved equal to methods with the source's loops.
- `digest.dfy` holds the digest. Its loop method is proved equal to functions, and a split function is proved to undo the newline join.
- `viewer.dfy` models both presenters. Their effects on the outside world are a log of actions: a page written to a file, a file opened in the browser, a page embedded, a pause. Each presenter method is proved equal to a pure run function, and the order, count and pause properties are proved about that function.

A Python exception that escapes a presenter is modelled as an `Err` result. The only one the model admits is `.encode()` on a `word`, `meaning` or `phrase` that is not a string.

On a card whose clips all failed, the three single-clip buttons report "Audio not available". Play All finds no combined element, falls back to the sequence, passes over the three missing clips and reports "Finished playing all" (utils/json2html.py:249-251, 278-333). `Playback.SilentPageControls` states this.

A disabled button dispatches no click, so its handler does not run. The script relies on this: it disables the playing button (utils/json2html.py:222) and every button during the sequence (utils/json2html.py:289-292). A click on a disabled button therefore leaves the state as it was.

`view_trigger`'s branch for a missing Streamlit cannot be reached. viewer.py imports utils/json2html.py (viewer.py:26), which imports streamlit unconditionally (utils/json2html.py:2), so without Streamlit the import fails before `STREAMLIT_AVAILABLE` is set (viewer.py:29-33). The model keeps the branch as written, with availability as a parameter.

## Model

| member | source | states |
|---|---|---|
| AudioCache.Slug | utils/json2html.py:48 | the slug is as long as the word; each space becomes `_` and each other character is lowered |
| AudioCache.PersistedName | utils/json2html.py:48 | the file name is the slug followed by `.mp3`, and depends on the word alone |
| AudioCache.CombinedText | utils/json2html.py:52 | the combined text is the word, the pause `. . . `, the meaning, the pause and the phrase, in that order |
| AudioCache.Replace | utils/json2html.py:48 | `replace(' ', '_')` keeps the length and swaps exactly the matching characters |
| AudioCache.Lower | utils/json2html.py:48 | `lower()` keeps the length and lowers each character |
| AudioCache.SlugNormalises | utils/json2html.py:48 | the slug is as long as the word and has no space and no upper-case letter; a word is its own slug exactly when it already has neither |
| AudioCache.SlugIdempotent | utils/json2html.py:48 | normalising a slug again changes nothing |
| AudioCache.SameFileIffSameSlug | utils/json2html.py:48 | two words map to the same `.mp3` file exactly when their slugs are equal |
| AudioCache.CacheStep | utils/json2html.py:39-63 | the name is the word's file or None; an existing file is returned unchanged with nothing synthesized; a missing one is written with the clip of the combined text, or None when synthesis or the write fails; no other file changes |
| AudioCache.Utf8Size | utils/json2html.py:58 | a character takes one to four bytes in the UTF-8 file name, one exactly for ASCII |
| AudioCache.Utf8Length | utils/json2html.py:58 | a name's UTF-8 length is between its character count and four times it |
| AudioCache.LongWordNotCached | utils/json2html.py:48-63 | a new word of 252 characters or more gives a name over 255 bytes, which cannot be saved: the call returns None and writes nothing |
| AudioCache.CacheKeyedByWordOnly | utils/json2html.py:47-59 | once a word's file exists, a later call with any meaning and phrase returns the same name and leaves every file as it was |
| AudioCache.CollidingWordsShareFile | utils/json2html.py:48-59 | words with equal slugs share one file: the second is served the first one's clip |
| AudioCache.AudioStore.constructor | utils/json2html.py:43-45 | a store holding the given directory flag and files |
| AudioCache.AudioStore.MakeDirectory | utils/json2html.py:43-45 | afterwards the directory exists and its files are unchanged |
| AudioCache.AudioStore.GenerateCombinedAudioFile | utils/json2html.py:39-63 | the returned name and the new files are those of `CacheStep`, and the directory exists |
| CardBuilder.Head8 | utils/json2html.py:108-111 | `hexdigest()[:8]` is a prefix of the digest, of length eight or the whole digest |
| CardBuilder.RenderCard | utils/json2html.py:107-196 | the card carries the three texts and the ids of the four roles; all four buttons are present, Play All first, each other button targeting its role's id |
| CardBuilder.AppendInRoleOrder | utils/json2html.py:187-196 | appending at most one element of the next role keeps the elements in role order |
| CardBuilder.FirstElement | utils/json2html.py:187-188 | the combined element, present or not, starts the role order |
| CardBuilder.NextElement | utils/json2html.py:191-196 | the element of the next role, appended when its clip exists, keeps the role order |
| CardBuilder.ElementsInRoleOrder | utils/json2html.py:186-196 | whichever clips exist, the hidden elements come in the order combined, word, meaning, phrase |
| CardBuilder.CardAudiosSplit | utils/json2html.py:186-196 | an element is in the card exactly when some role's clip was synthesized and the element is that role's, with its id and clip |
| CardBuilder.CardAudios | utils/json2html.py:186-196 | a role has an element exactly when its clip was synthesized; each element carries its role's id and that clip |
| CardBuilder.CardAudiosInOrder | utils/json2html.py:186-196 | a card's elements come in the order combined, word, meaning, phrase |
| CardBuilder.VocabularyPage | utils/json2html.py:85-111 | a non-dict renders blank; the rendering raises exactly when one of the three values is not a string; otherwise the page is the card of the three values, read with the default "" |
| CardBuilder.StoreEffect | utils/json2html.py:96-97 | a non-dict, or a word that is not a string, leaves the store as it was; otherwise at most the word's file is added, and no existing file changes, even when the rendering raises afterwards |
| CardBuilder.PersistedClipIsCombinedClip | utils/json2html.py:52-69 | the persisted and the inline variant both speak `CombinedText(word, meaning, phrase)`; with the engine taken as deterministic within one rendering, a clip the cache writes for a new word is also the clip of the card's combined element |
| CardBuilder.IdsDistinct | utils/json2html.py:108-111 | the four ids of a card are pairwise distinct whatever the texts and digests |
| CardBuilder.CombinedAndWordShareSuffix | utils/json2html.py:108-109 | the combined and word ids carry the same eight-character digest suffix and still differ |
| CardBuilder.PresentIffSynthesized | utils/json2html.py:187-196 | `getElementById` of a role's id finds an element exactly when the role's clip was synthesized, and that element holds the clip |
| CardBuilder.SilentCard | utils/json2html.py:171-196 | when the engine always fails, the card still shows the three texts and four buttons and holds no audio element |
| CardBuilder.JsonToVocabularyHtml | utils/json2html.py:85-105 | the page is `VocabularyPage`; the audio store changes as the persisted cache does, and only for a dict |
| Common.GetFirstBinding | utils/json2html.py:92-94 | `get` returns the default when the key is absent, and otherwise the value of the first binding of the key |
| Common.GetBoundValue | utils/json2html.py:92-94 | in a dict, whose keys are distinct, `get` of a bound key returns the value bound to it |
| Digest.SplitLines | viewer.py:65-66 | splitting a text always gives at least one part |
| Digest.SplitLinesPrefix | viewer.py:65-66 | a text without newline glues onto the first part of what follows it |
| Digest.SplitJoinLines | viewer.py:65-66 | splitting on newlines recovers the lines that `"\n".join` joined, when no line holds a newline |
| Digest.MissingKeyReadsEmpty | viewer.py:53-56 | a key the entry lacks reads as the empty text |
| Digest.PlainLinesInOrder | viewer.py:51-59 | exactly one plain line per entry, holding its word, meaning, phrase and media, in input order |
| Digest.HtmlItemsInOrder | viewer.py:51-60 | exactly one list item per entry, in input order |
| Digest.PlainLineSingle | viewer.py:59 | a plain line holds no newline when the entry's texts hold none |
| Digest.HtmlItemSingle | viewer.py:60 | a list item holds no newline when the entry's texts hold none |
| Digest.PlainDigestLines | viewer.py:59-65 | the joined plain digest reads back as one line per entry, in order |
| Digest.HtmlLinesShape | viewer.py:49-63 | the HTML lines are the three header lines, one item per entry in order, then `</ul>` and `</body></html>` |
| Digest.HtmlLinesSingle | viewer.py:49-63 | no HTML line holds a newline when no text does |
| Digest.HtmlDigestLines | viewer.py:49-66 | the joined HTML digest reads back as the header, one item per entry in order, and the footer |
| Digest.BuildHtmlFromVocabulary | viewer.py:46-67 | the loop builds the newline-joined plain lines and HTML lines of the selection |
| Playback.NextPresent | utils/json2html.py:294-326 | the next index the sequence plays is the first one from `i` whose element is present, or 3 when none is |
| Playback.PresentFromPresent | utils/json2html.py:294-326 | every clip the sequence plays from `i` has an index of at least `i` and an element in the page |
| Playback.PresentFromIncreasing | utils/json2html.py:285-326 | the sequence plays clips in increasing index order, so each at most once |
| Playback.PresentFromComplete | utils/json2html.py:294-326 | every clip from `i` on whose element is present is played |
| Playback.AfterPlayAudio | utils/json2html.py:211-252 | a missing element only reports "Audio not available"; otherwise only the chosen button is marked playing and disabled |
| Playback.AfterPlayNext | utils/json2html.py:294-334 | `playNext` leaves the playing marks as they were |
| Playback.AfterStartSequence | utils/json2html.py:284-338 | starting the sequence keeps the state well formed |
| Playback.AfterPlaySequentially | utils/json2html.py:254-282 | Play All keeps the state well formed |
| Playback.AfterEvent | utils/json2html.py:226-321 | every event handler keeps the state well formed |
| Playback.AfterClick | utils/json2html.py:176-179 | a click keeps the state well formed, and a click on a disabled button changes nothing |
| Playback.AfterLoad | utils/json2html.py:341-352 | `window.onload` keeps the state well formed |
| Playback.Run | utils/json2html.py:226-321 | delivering a series of events keeps the state well formed |
| Playback.RunAppend | utils/json2html.py:226-321 | delivering two series of events is delivering the first, then the second |
| Playback.FeedPrefix | utils/json2html.py:303-321 | the events of the first k clips are the first clip's events followed by those of the next k - 1 |
| Playback.PlayNextIgnoresStatus | utils/json2html.py:294-300 | `playNext` depends only on the button flags of the state it starts from |
| Playback.PresentFromSkips | utils/json2html.py:323-326 | missing clips are passed over at once: the clips still to play are the next present one and those after it |
| Playback.ClipStep | utils/json2html.py:303-321 | whether a sequence clip ends (then the 800 ms pause elapses), fails or is refused, the sequence moves on to the next index |
| Playback.SequenceFinishes | utils/json2html.py:294-333 | after one outcome per present clip, the buttons are enabled and "Finished playing all" is reported |
| Playback.SequenceVisitsInOrder | utils/json2html.py:285-326 | the k-th outcome belongs to the k-th present clip, in word, meaning, phrase order |
| Playback.PlayAllFallsBackAndFinishes | utils/json2html.py:254-338 | Play All with a failing combined clip, or without one, runs the sequence and ends with every button enabled and "Finished playing all" |
| Playback.ThreeClipsInFixedOrder | utils/json2html.py:285-333 | with all three clips present, the fallback visits word, meaning and phrase in that order and then finishes |
| Playback.SingleClipReturnsToIdle | utils/json2html.py:211-246 | a click on an enabled single-clip button whose clip then ends, fails or is refused clears its button, reports "Finished playing", "Error playing audio" or "Failed to play audio" respectively, and leaves every button enabled and unmarked, with no sequence started |
| Playback.SilentPageControls | utils/json2html.py:249-333 | on a card without audio, an enabled single-clip button only reports "Audio not available"; an enabled Play All ends at once with "Finished playing all" |
| Playback.PlayNextLocks | utils/json2html.py:289-326 | once every button is disabled, `playNext` keeps them so while the sequence goes on |
| Playback.EventKeepsLocked | utils/json2html.py:226-333 | no handler enables a button while the sequence is still running |
| Playback.ClickKeepsLocked | utils/json2html.py:176-179 | no click enables a button while the sequence is still running |
| Playback.LoadKeepsLocked | utils/json2html.py:341-352 | loading the page keeps every button disabled while the sequence runs |
| Playback.ClickIgnoredDuringSequence | utils/json2html.py:289-292 | while the sequence runs, every click finds its button disabled and changes nothing |
| Playback.LoadPlaysEverything | utils/json2html.py:341-352 | without audio support, loading only reports; with it, a combined clip that plays ends with "Finished playing complete vocabulary", and one that fails, is refused or is missing falls back to the sequence, which ends with every button enabled and "Finished playing all" |
| Playback.Player.constructor | utils/json2html.py:175-182 | a card's script starts with no button marked or disabled, an empty status and nothing playing |
| Playback.Player.UpdateStatus | utils/json2html.py:201-209 | the status shows the message |
| Playback.Player.ResetButtons | utils/json2html.py:214-218 | afterwards every button is unmarked and enabled |
| Playback.Player.SetAllDisabled | utils/json2html.py:289-292 | afterwards every button is disabled, or every one enabled |
| Playback.Player.PlayAudio | utils/json2html.py:211-252 | the new state is `AfterPlayAudio` of the old one |
| Playback.Player.PlayNext | utils/json2html.py:294-334 | the loop over missing clips ends in the state `AfterPlayNext` gives |
| Playback.Player.PlayIndividualSequence | utils/json2html.py:284-338 | the new state is `AfterStartSequence` of the old one |
| Playback.Player.PlaySequentially | utils/json2html.py:254-282 | the new state is `AfterPlaySequentially` of the old one |
| Playback.Player.Handle | utils/json2html.py:226-321 | the new state is `AfterEvent` of the old one |
| Playback.Player.Click | utils/json2html.py:176-179 | a disabled button does nothing; otherwise the new state is `AfterClick` of the old one |
| Playback.Player.OnLoad | utils/json2html.py:341-352 | the new state is `AfterLoad` of the old one |
| SimpleHtml.Converted | utils/json2html.py:363-384 | every block `convert_value` produces is non-empty and ends with a newline |
| SimpleHtml.ListItemsSnoc | utils/json2html.py:372-379 | one more list item adds exactly its own bullet |
| SimpleHtml.ConvertedFieldsAppend | utils/json2html.py:364-368 | rendering two runs of items is rendering the first, then the second |
| SimpleHtml.ConvertedFieldsBlocks | utils/json2html.py:364-368 | each item of a dict contributes its own block, in item order |
| SimpleHtml.NonDictPageIsEmpty | utils/json2html.py:386-409 | a value that is not a dict gives the page with an empty body |
| SimpleHtml.ConvertValue | utils/json2html.py:363-384 | the loops of `convert_value` compute the recursive rendering |
| SimpleHtml.ConvertFields | utils/json2html.py:365-368 | the loop over a dict's items computes their blocks in order |
| SimpleHtml.ConvertListItems | utils/json2html.py:371-381 | the loop over a list's items computes their bullets in order |
| SimpleHtml.ConvertInlineFields | utils/json2html.py:375-376 | the inner loop computes the inline `key: value` lines in order |
| SimpleHtml.JsonToSimpleHtml | utils/json2html.py:360-409 | the page is the fixed head, the top-level dict's blocks and the fixed tail |
| Viewer.Decimal | viewer.py:101 | `str(n)` has at least one digit, and exactly one for n below ten |
| Viewer.DecimalInjective | viewer.py:101 | distinct numbers print differently |
| Viewer.FileNameInjective | viewer.py:101 | distinct positions get distinct `word_{idx+1}.html` names |
| Viewer.PathJoinInjective | viewer.py:101 | joining one directory with two names gives the same path only for the same name |
| Viewer.FilePathsDistinct | viewer.py:101 | the page files of two positions never coincide |
| Viewer.SleepCountAppend | viewer.py:107-112 | the pauses of two logs add up |
| Viewer.BuildPages | viewer.py:96-98 | at most one page per entry, and one per entry when no rendering raised |
| Viewer.BuildPagesInOrder | viewer.py:96-98 | the pages are the leading entries' renderings in order; rendering stops exactly at the first entry that raises and otherwise covers the whole selection |
| Viewer.BuildPagesStops | viewer.py:96-98 | once an entry raised, later entries change nothing |
| Viewer.RenderOk | viewer.py:96-98 | an entry that renders after a clean prefix adds its page and its store effect |
| Viewer.RenderErr | viewer.py:96-98 | an entry that raises after a clean prefix ends the whole run with its error |
| Viewer.RenderEntry | viewer.py:98 | `json_to_vocabulary_html` on an entry gives its page or error and its store effect |
| Viewer.WritesSnoc | viewer.py:100-104 | one more page written to one more file adds exactly that write |
| Viewer.Paths | viewer.py:96-104 | there is one file per position |
| Viewer.WritesInOrder | viewer.py:100-104 | page i is written to file i, with no pause among the writes |
| Viewer.PathsInOrder | viewer.py:101 | the file of position i is `word_{i+1}.html` in the temporary directory |
| Viewer.PresentedUpToLength | viewer.py:107-112 | k opened files give 2k steps, one fewer once all are opened |
| Viewer.PresentedUpToSleeps | viewer.py:107-112 | k opened files give k pauses, one fewer once all are opened |
| Viewer.PresentedUpToSteps | viewer.py:107-112 | the file of position i is opened at step 2i, and a pause follows it when one does |
| Viewer.PresentationShape | viewer.py:107-112 | n files are opened in list order with n - 1 pauses of `hold_time`, none after the last |
| Viewer.Standalone | viewer.py:70-116 | the result is None exactly for an empty selection; when all pages render, one file per entry is returned and the log has 3n - 1 steps with n - 1 pauses |
| Viewer.EmptySelectionShowsNothing | viewer.py:85-87 | an empty selection writes, opens and returns nothing |
| Viewer.AllRender | viewer.py:96-98 | when every entry renders, the pages are the entries' pages, in order |
| Viewer.StandaloneOneFilePerEntry | viewer.py:96-116 | the returned list holds one file per entry, named `word_{i+1}.html` by position, pairwise distinct |
| Viewer.WritesThenOpens | viewer.py:96-112 | n writes in order, then n opens in order, with n - 1 pauses in all |
| Viewer.StandaloneWritesThenOpens | viewer.py:96-116 | each entry's page is written to its file, then the files are presented: 3n - 1 steps, n - 1 pauses |
| Viewer.ViewTriggerStandalone | viewer.py:70-116 | the log, the audio store and the result are those of the `Standalone` run |
| Viewer.WritePages | viewer.py:96-104 | the first loop writes the rendered pages to the positional files and stops at the first error |
| Viewer.OpenPages | viewer.py:107-112 | the second loop produces the presentation: opens in order, a pause after all but the last |
| Viewer.EmbedsSnoc | viewer.py:138-143 | one more embedded page adds its embed and one pause |
| Viewer.EmbedsShape | viewer.py:138-143 | n pages are embedded in order, each followed by a pause: n pauses |
| Viewer.StreamlitPausesAfterEvery | viewer.py:136-143 | with Streamlit, a selection that renders embeds every page in order and pauses after each, the last included |
| Viewer.StreamlitRun | viewer.py:119-148 | a run that succeeds on n entries pauses n times with Streamlit and n - 1 times without |
| Viewer.EmbedRun | viewer.py:136-143 | a run that succeeds embeds n pages with n pauses: 2n steps |
| Viewer.ViewTrigger | viewer.py:119-148 | without Streamlit the standalone run with the default pause; with it the embed run |
| Viewer.EmbedPages | viewer.py:136-143 | the Streamlit loop embeds the rendered pages, each followed by a pause, and stops at the first error |

## Left out

- Speech synthesis (gTTS), `BytesIO` and base64 are an oracle from text to optional MP3 bytes. The `data:audio/mpeg;base64,` URL and the `lang` argument are not modelled. Any exception of the engine is its `None` result.
- The module-level synthesis of the welcome text at import time, and the sample entry, are side effects with no logic.
- MD5 is an abstract text-to-hex function. Only its eight-character prefix is reasoned about.
- `str.lower()` is modelled for ASCII letters only.
- The file system is a map from names to bytes: `os.makedirs`, `os.path.exists`, `open`/`write` and `tempfile.mkdtemp` are left out. `os.path.abspath` is taken as the identity on the path in the absolute temporary directory.
- AudioCache.CacheStep: a word whose file name holds `/` returns None and writes nothing in the model. The program writes elsewhere: `os.path.join` makes a name starting with `/` an absolute path, and any other `/` addresses a sub-directory of `audio`. When that directory exists, the program saves the clip there and returns the name. The model holds only the flat `audio` directory. A NUL, and a name over 255 bytes, are refused by the system in both.
- CardBuilder.PersistedClipIsCombinedClip: the engine is taken as deterministic within one rendering: the same text gives the same clip or the same failure. The program makes two separate engine calls, `tts.save` (utils/json2html.py:57-58) and `get_combined_audio_base64` (utils/json2html.py:71-73), so the first can succeed and the second fail, for example on a rate limit or a dropped connection. The file is then written and the card has no combined element. The program only guarantees that both calls speak the same text.
- AudioCache.CacheStep: a name longer than 255 bytes in UTF-8 is refused, as ext4 and most Linux file systems refuse it; on a file system with another limit the model's bound differs.
- AudioCache.CacheStep: the save is taken as atomic, either the whole clip or no file. A synthesis that fails after the library has opened the target file can leave an empty `.mp3`. The existence check of utils/json2html.py:55 would then reuse that file from then on.
- The race between processes in the cache's check-then-write is a concurrency matter and is not modelled.
- CSS and the literal HTML/JS text of the card are not modelled; the card is a structure. Texts are interpolated without escaping, and the model claims no escaping.
- `generate_combined_audio_file`'s file name is returned but never used by the page; the model drops it.
- Playback timers are abstract events: the 500 ms autoplay delay is folded into `window.onload`, the 800 ms gap is a `PauseElapsed` event, and the 2 s status clear of `updateStatus` is not modelled.
- JSON dicts are item sequences whose keys the type does not force to be distinct; `Common.GetBoundValue` and the digest and converter properties are meant for the distinct keys a Python dict has.
- Playback: one activity receives the events at a time. A clip that was superseded keeps its handlers in the browser, and a clip may report both an error and a rejection; such stale and duplicate events are not modelled.
- Playback.AfterPlayNext: its own contract only keeps the state well formed; the lemmas about it and the `Player` method proved equal to it state what it does.
- Playback.AfterStartSequence: its own contract only keeps the state well formed; the lemmas about it and the `Player` method proved equal to it state what it does.
- Playback.AfterPlaySequentially: its own contract only keeps the state well formed; the lemmas about it and the `Player` method proved equal to it state what it does.
- Playback.AfterEvent: its own contract only keeps the state well formed; `SingleClipReturnsToIdle` (the three single-clip releases), `LoadPlaysEverything` (the combined clip), `ClipStep` and `SequenceFinishes` (the sequence) and the `Player` method proved equal to it state what it does.
- Playback.AfterClick: its own contract states only that a disabled button changes nothing; what an enabled button does is stated by `SilentPageControls`, `SingleClipReturnsToIdle` and `PlayAllFallsBackAndFinishes`.
- Playback.AfterLoad: its own contract only keeps the state well formed; `LoadPlaysEverything` and the `Player` method proved equal to it state what it does.
- Playback.Run: its own contract only keeps the state well formed; `RunAppend`, `SequenceFinishes` and `SequenceVisitsInOrder` state what it computes.
- `print` output, `webbrowser.open`, `st.components.v1.html`, `st.title`, `st.header` and `st.button` are either left out or recorded as log actions. `time.sleep` is a `Sleep` action, not elapsed time.
- A negative `hold_time` makes `time.sleep` raise; the pause is modelled as a natural number.
- `select_words_from_vocabulary` lives in `utils/select_words.py`, which is not part of this model. The selection is a parameter, and every selected entry is taken to be a dict. The fallback of `view_trigger` to the standalone presenter runs a selection of its own; the model passes it in the same way, with the default pause of 10 s.
- `get_today_iso_date` reads the clock and is not modelled.
- `check_ffmpeg.py` (environment diagnostics) and `trigger.py` (logging set-up and Streamlit launch) are not part of this model.
- The presenters' loops reach the renderer through a predicate that ties an abstract renderer and store update to `json_to_vocabulary_html`. This is how the model is organised; the behaviour is the same.
