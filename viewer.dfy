/// The presenters of viewer.py: `view_trigger_standalone`, which renders one
/// card page per selected entry into a temporary directory and then opens the
/// pages in the browser one after the other, and the Streamlit `view_trigger`,
/// which embeds the pages in the app. What the presenters do to the outside
/// world is recorded as a log of actions.
module Viewer {
  import opened Common
  import opened CardBuilder
  import opened Digest

  // ---------------------------------------------------------------------------
  // File names of the standalone presenter.

  /** The decimal digit character of `d`. */
  function Digit(d: nat): char
    requires d < 10
  {
    ('0' as int + d) as char
  }

  /** `str(n)` of a natural number. */
  function Decimal(n: nat): (r: string)
    ensures |r| >= 1 && (n < 10 <==> |r| == 1)
  {
    if n < 10 then [Digit(n)] else Decimal(n / 10) + [Digit(n % 10)]
  }

  /** Distinct numbers print differently. */
  lemma {:induction false} DecimalInjective(n: nat, m: nat)
    requires Decimal(n) == Decimal(m)
    ensures n == m
  {
    if n >= 10 && m >= 10 {
      var dn, dm := Decimal(n), Decimal(m);
      assert dn[..|dn| - 1] == Decimal(n / 10);
      assert dm[..|dm| - 1] == Decimal(m / 10);
      DecimalInjective(n / 10, m / 10);
      assert Digit(n % 10) == dn[|dn| - 1] == dm[|dm| - 1] == Digit(m % 10);
    }
  }

  /** The fixed parts of a page file's name. */
  const FilePrefix: string := "word_"
  const FileSuffix: string := ".html"

  /** `f"word_{idx+1}.html"`: the name of the page file of position idx. */
  function FileName(idx: nat): string
  {
    FilePrefix + Decimal(idx + 1) + FileSuffix
  }

  lemma FileNameInjective(i: nat, j: nat)
    requires FileName(i) == FileName(j)
    ensures i == j
  {
    var a := FileName(i);
    assert a[5..|a| - 5] == Decimal(i + 1);
    assert a[5..|a| - 5] == Decimal(j + 1);
    DecimalInjective(i + 1, j + 1);
  }

  /** `os.path.join(dir, name)` for a relative name. */
  function PathJoin(dir: string, name: string): string
  {
    if dir == [] || dir[|dir| - 1] == '/' then dir + name else dir + "/" + name
  }

  lemma PathJoinInjective(dir: string, a: string, b: string)
    requires PathJoin(dir, a) == PathJoin(dir, b)
    ensures a == b
  {
    var d := if dir == [] || dir[|dir| - 1] == '/' then dir else dir + "/";
    assert PathJoin(dir, a) == d + a && PathJoin(dir, b) == d + b;
    assert a == (d + a)[|d|..];
    assert b == (d + b)[|d|..];
  }

  /** The file of the page at position `idx`. */
  function FilePath(tempDir: string, idx: nat): string
  {
    PathJoin(tempDir, FileName(idx))
  }

  /** The page files of two positions never coincide, whatever the directory. */
  lemma FilePathsDistinct(tempDir: string, i: nat, j: nat)
    requires i != j
    ensures FilePath(tempDir, i) != FilePath(tempDir, j)
  {
    if FilePath(tempDir, i) == FilePath(tempDir, j) {
      PathJoinInjective(tempDir, FileName(i), FileName(j));
      FileNameInjective(i, j);
    }
  }

  // ---------------------------------------------------------------------------
  // Actions.

  /** An effect on the outside world. */
  datatype Action =
    | Write(path: string, page: Page)   // a page saved to a file
    | Open(url: string)                 // a file opened in the browser
    | Embed(page: Page)                 // a page embedded in the Streamlit app
    | Sleep(seconds: nat)

  /** The pauses of a log, counted. */
  function SleepCount(log: seq<Action>): nat
  {
    if log == [] then 0 else SleepCount(log[..|log| - 1]) + (if log[|log| - 1].Sleep? then 1 else 0)
  }

  lemma {:induction false} SleepCountAppend(a: seq<Action>, b: seq<Action>)
    ensures SleepCount(a + b) == SleepCount(a) + SleepCount(b)
    decreases |b|
  {
    if b == [] {
      assert a + b == a;
    } else {
      assert (a + b)[..|a + b| - 1] == a + b[..|b| - 1];
      SleepCountAppend(a, b[..|b| - 1]);
    }
  }

  // ---------------------------------------------------------------------------
  // Rendering the selection, entry by entry.

  /** The pages rendered so far, the audio store they leave, and the error
      that stopped the rendering, if one did. */
  datatype Built = Built(pages: seq<Page>, files: map<string, Clip>, failure: Option<BuildError>)

  /** What renders an entry: its page, or the error its rendering raises ... */
  type Renderer = Entry -> Result<Page, BuildError>

  /** ... and what the rendering does to the audio store. */
  type StoreUpdate = (map<string, Clip>, Entry) -> map<string, Clip>

  /** Renders each entry in order until one raises: `page` gives an entry's
      page or error, `effect` what the rendering does to the audio store. */
  function BuildPages(files: map<string, Clip>, entries: seq<Entry>,
                      page: Renderer, effect: StoreUpdate): (r: Built)
    ensures |r.pages| <= |entries| && (r.failure.None? ==> |r.pages| == |entries|)
  {
    if entries == [] then Built([], files, None)
    else
      var prev := BuildPages(files, entries[..|entries| - 1], page, effect);
      if prev.failure.Some? then prev
      else
        var e := entries[|entries| - 1];
        match page(e)
        case Err(err) => Built(prev.pages, effect(prev.files, e), Some(err))
        case Ok(p) => Built(prev.pages + [p], effect(prev.files, e), None)
  }

  /** The pages are the renderings of the leading entries, in order; the
      rendering stops exactly at the first entry whose rendering raises, and
      runs through the whole selection when none does. */
  lemma {:induction false} BuildPagesInOrder(files: map<string, Clip>, entries: seq<Entry>,
                                             page: Renderer, effect: StoreUpdate)
    ensures var b := BuildPages(files, entries, page, effect);
            |b.pages| <= |entries| &&
            (forall i :: 0 <= i < |b.pages| ==> page(entries[i]) == Ok(b.pages[i])) &&
            (b.failure.None? ==> |b.pages| == |entries|) &&
            (b.failure.Some? ==> |b.pages| < |entries| && page(entries[|b.pages|]) == Err(b.failure.value))
  {
    if entries != [] {
      var init := entries[..|entries| - 1];
      BuildPagesInOrder(files, init, page, effect);
      assert forall i :: 0 <= i < |init| ==> init[i] == entries[i];
    }
  }

  /** Once an entry raised, later entries change nothing. */
  lemma {:induction false} BuildPagesStops(files: map<string, Clip>, entries: seq<Entry>, k: nat,
                                           page: Renderer, effect: StoreUpdate)
    requires k <= |entries|
    requires BuildPages(files, entries[..k], page, effect).failure.Some?
    ensures BuildPages(files, entries, page, effect) == BuildPages(files, entries[..k], page, effect)
    decreases |entries| - k
  {
    if k < |entries| {
      assert entries[..k + 1][..k] == entries[..k];
      BuildPagesStops(files, entries, k + 1, page, effect);
    } else {
      assert entries[..k] == entries;
    }
  }

  /** `json_to_vocabulary_html` on an entry: its page or error ... */
  function PageOf(o: Oracles): Renderer
  {
    e => VocabularyPage(Dict(e), o)
  }

  /** ... and what it leaves in the audio store. */
  function EffectOf(o: Oracles): StoreUpdate
  {
    (files, e) => StoreEffect(files, Dict(e), o)
  }

  /** An entry that renders after a prefix that rendered adds its page. */
  lemma RenderOk(files: map<string, Clip>, entries: seq<Entry>, k: nat, pages: seq<Page>,
                 after: map<string, Clip>, page: Renderer, effect: StoreUpdate)
    requires k < |entries| && page(entries[k]).Ok?
    requires BuildPages(files, entries[..k], page, effect) == Built(pages, after, None)
    ensures BuildPages(files, entries[..k + 1], page, effect) ==
            Built(pages + [page(entries[k]).value], effect(after, entries[k]), None)
  {
    assert entries[..k + 1][..k] == entries[..k];
  }

  /** An entry that raises after a prefix that rendered ends the whole run. */
  lemma RenderErr(files: map<string, Clip>, entries: seq<Entry>, k: nat, pages: seq<Page>,
                  after: map<string, Clip>, page: Renderer, effect: StoreUpdate)
    requires k < |entries| && page(entries[k]).Err?
    requires BuildPages(files, entries[..k], page, effect) == Built(pages, after, None)
    ensures BuildPages(files, entries, page, effect) ==
            Built(pages, effect(after, entries[k]), Some(page(entries[k]).error))
  {
    assert entries[..k + 1][..k] == entries[..k];
    BuildPagesStops(files, entries, k + 1, page, effect);
  }

  /** `page` and `effect` are `json_to_vocabulary_html` on an entry: they agree
      with it wherever it is applied. */
  ghost predicate Renders(page: Renderer, effect: StoreUpdate, o: Oracles)
  {
    (forall e {:trigger VocabularyPage(Dict(e), o)} :: page(e) == VocabularyPage(Dict(e), o)) &&
    (forall files, e {:trigger StoreEffect(files, Dict(e), o)} :: effect(files, e) == StoreEffect(files, Dict(e), o))
  }

  /** `json_to_vocabulary_html` on one entry, as the presenters call it. */
  method RenderEntry(store: AudioCache.AudioStore, e: Entry, o: Oracles, ghost page: Renderer, ghost effect: StoreUpdate)
    returns (content: Result<Page, BuildError>)
    requires store.Valid() && Renders(page, effect, o)
    modifies store
    ensures store.Valid()
    ensures content == page(e) && store.files == effect(old(store.files), e)
  {
    content := JsonToVocabularyHtml(store, Dict(e), o);
  }

  // ---------------------------------------------------------------------------
  // The standalone presenter.

  /** Each page written to the file of the same position. */
  function Writes(paths: seq<string>, pages: seq<Page>): seq<Action>
    requires |paths| == |pages|
  {
    if pages == [] then []
    else Writes(paths[..|paths| - 1], pages[..|pages| - 1]) + [Write(paths[|paths| - 1], pages[|pages| - 1])]
  }

  /** One more page written to one more file. */
  lemma WritesSnoc(paths: seq<string>, pages: seq<Page>, path: string, p: Page)
    requires |paths| == |pages|
    ensures Writes(paths + [path], pages + [p]) == Writes(paths, pages) + [Write(path, p)]
  {
    assert (paths + [path])[..|paths|] == paths;
    assert (pages + [p])[..|pages|] == pages;
  }

  /** The files of the first n positions. */
  function Paths(tempDir: string, n: nat): (r: seq<string>)
    ensures |r| == n
  {
    if n == 0 then [] else Paths(tempDir, n - 1) + [FilePath(tempDir, n - 1)]
  }

  /** Page i is written to file i, and nothing else happens. */
  lemma {:induction false} WritesInOrder(paths: seq<string>, pages: seq<Page>)
    requires |paths| == |pages|
    ensures var w := Writes(paths, pages);
            |w| == |pages| && SleepCount(w) == 0 &&
            forall i :: 0 <= i < |pages| ==> w[i] == Write(paths[i], pages[i])
  {
    if pages != [] {
      var n := |pages|;
      WritesInOrder(paths[..n - 1], pages[..n - 1]);
      var w := Writes(paths, pages);
      assert w[..n - 1] == Writes(paths[..n - 1], pages[..n - 1]);
      forall i | 0 <= i < n ensures w[i] == Write(paths[i], pages[i]) {
        if i < n - 1 {
          assert w[i] == w[..n - 1][i];
        }
      }
    }
  }

  /** The file of position i is `word_{i+1}.html` in the temporary directory. */
  lemma {:induction false} PathsInOrder(tempDir: string, n: nat)
    ensures forall i :: 0 <= i < n ==> Paths(tempDir, n)[i] == PathJoin(tempDir, FileName(i))
  {
    if n > 0 {
      var prev := Paths(tempDir, n - 1);
      PathsInOrder(tempDir, n - 1);
      assert Paths(tempDir, n) == prev + [FilePath(tempDir, n - 1)];
      forall i | 0 <= i < n - 1 ensures Paths(tempDir, n)[i] == prev[i] {
      }
    }
  }

  const FileScheme: string := "file://"

  /** `'file://' + os.path.abspath(path)` for a path in the absolute temporary directory. */
  function Url(path: string): string
  {
    FileScheme + path
  }

  /** The browser steps for the first k files: each opened, with a pause after
      every one but the last of all. */
  function PresentedUpTo(paths: seq<string>, k: nat, hold: nat): seq<Action>
    requires k <= |paths|
  {
    if k == 0 then []
    else
      PresentedUpTo(paths, k - 1, hold) + [Open(Url(paths[k - 1]))] +
      (if k - 1 < |paths| - 1 then [Sleep(hold)] else [])
  }

  function Presentation(paths: seq<string>, hold: nat): seq<Action>
  {
    PresentedUpTo(paths, |paths|, hold)
  }

  lemma {:induction false} PresentedUpToLength(paths: seq<string>, k: nat, hold: nat)
    requires k <= |paths|
    ensures |PresentedUpTo(paths, k, hold)| == if k == |paths| && k > 0 then 2 * k - 1 else 2 * k
  {
    if k > 0 {
      PresentedUpToLength(paths, k - 1, hold);
    }
  }

  lemma {:induction false} PresentedUpToSleeps(paths: seq<string>, k: nat, hold: nat)
    requires k <= |paths|
    ensures SleepCount(PresentedUpTo(paths, k, hold)) == if k == |paths| && k > 0 then k - 1 else k
  {
    if k > 0 {
      PresentedUpToSleeps(paths, k - 1, hold);
      var prev := PresentedUpTo(paths, k - 1, hold);
      var open: seq<Action> := [Open(Url(paths[k - 1]))];
      var sleep: seq<Action> := if k - 1 < |paths| - 1 then [Sleep(hold)] else [];
      SleepCountAppend(prev + open, sleep);
      SleepCountAppend(prev, open);
      assert open[..0] == [];
      assert sleep != [] ==> sleep[..0] == [];
    }
  }

  lemma {:induction false} PresentedUpToSteps(paths: seq<string>, k: nat, hold: nat)
    requires k <= |paths|
    ensures var log := PresentedUpTo(paths, k, hold);
            (forall i :: 0 <= i < k ==> 2 * i < |log| && log[2 * i] == Open(Url(paths[i]))) &&
            (forall i :: 0 <= i < k && 2 * i + 1 < |log| ==> log[2 * i + 1] == Sleep(hold))
  {
    if k > 0 {
      PresentedUpToSteps(paths, k - 1, hold);
      PresentedUpToLength(paths, k - 1, hold);
      var prev := PresentedUpTo(paths, k - 1, hold);
      var log := PresentedUpTo(paths, k, hold);
      assert |prev| == 2 * (k - 1);
      assert log[..|prev|] == prev;
      assert log[|prev|] == Open(Url(paths[k - 1]));
      forall i | 0 <= i < k ensures 2 * i < |log| && log[2 * i] == Open(Url(paths[i])) {
        if i < k - 1 { assert log[2 * i] == log[..|prev|][2 * i]; }
      }
      forall i | 0 <= i < k && 2 * i + 1 < |log| ensures log[2 * i + 1] == Sleep(hold) {
        if i < k - 1 { assert log[2 * i + 1] == log[..|prev|][2 * i + 1]; }
      }
    }
  }

  /** The browser opens the files in list order with a pause of `hold` between
      two of them and none after the last: n opens and n - 1 pauses for n files. */
  lemma PresentationShape(paths: seq<string>, hold: nat)
    requires |paths| > 0
    ensures var log := Presentation(paths, hold);
            |log| == 2 * |paths| - 1 &&
            SleepCount(log) == |paths| - 1 &&
            log[|log| - 1] == Open(Url(paths[|paths| - 1])) &&
            (forall i :: 0 <= i < |paths| ==> log[2 * i] == Open(Url(paths[i]))) &&
            (forall i :: 0 <= i < |paths| - 1 ==> log[2 * i + 1] == Sleep(hold))
  {
    PresentedUpToLength(paths, |paths|, hold);
    PresentedUpToSleeps(paths, |paths|, hold);
    PresentedUpToSteps(paths, |paths|, hold);
  }

  /** The whole run of `view_trigger_standalone` on a selection: its log, the
      audio store it leaves, and its result (None for an empty selection, the
      page files otherwise, or the error a rendering raised). */
  function Standalone(files: map<string, Clip>, selected: seq<Entry>, tempDir: string, hold: nat,
                      page: Renderer, effect: StoreUpdate)
    : (r: (seq<Action>, map<string, Clip>, Result<Option<seq<string>>, BuildError>))
    ensures r.2 == Ok(None) <==> selected == []
    ensures r.2.Ok? && r.2.value.Some? ==>
              |r.2.value.value| == |selected| && |r.0| == 3 * |selected| - 1 && SleepCount(r.0) == |selected| - 1
  {
    if selected == [] then ([], files, Ok(None))
    else
      var b := BuildPages(files, selected, page, effect);
      var paths := Paths(tempDir, |b.pages|);
      var writes := Writes(paths, b.pages);
      if b.failure.Some? then (writes, b.files, Err(b.failure.value))
      else
        WritesThenOpens(paths, b.pages, hold);
        (writes + Presentation(paths, hold), b.files, Ok(Some(paths)))
  }

  /** An empty selection writes, opens and returns nothing. */
  lemma EmptySelectionShowsNothing(files: map<string, Clip>, tempDir: string, hold: nat,
                                   page: Renderer, effect: StoreUpdate)
    ensures Standalone(files, [], tempDir, hold, page, effect) == ([], files, Ok(None))
  {
  }

  /** When every entry renders, the rendering runs through the selection and
      its pages are the entries' pages, in order. */
  lemma AllRender(files: map<string, Clip>, entries: seq<Entry>, page: Renderer, effect: StoreUpdate)
    requires forall i :: 0 <= i < |entries| ==> page(entries[i]).Ok?
    ensures var b := BuildPages(files, entries, page, effect);
            b.failure.None? && |b.pages| == |entries| &&
            forall i :: 0 <= i < |entries| ==> Ok(b.pages[i]) == page(entries[i])
  {
    BuildPagesInOrder(files, entries, page, effect);
  }

  /** A selection whose entries all render gives one page file per entry,
      named by position, the files pairwise distinct. */
  lemma StandaloneOneFilePerEntry(files: map<string, Clip>, selected: seq<Entry>, tempDir: string,
                                  hold: nat, page: Renderer, effect: StoreUpdate)
    requires |selected| > 0
    requires forall i :: 0 <= i < |selected| ==> page(selected[i]).Ok?
    ensures var r := Standalone(files, selected, tempDir, hold, page, effect).2;
            r.Ok? && r.value.Some? && |r.value.value| == |selected| &&
            (forall i :: 0 <= i < |selected| ==> r.value.value[i] == PathJoin(tempDir, FileName(i))) &&
            (forall i, j :: 0 <= i < j < |selected| ==> r.value.value[i] != r.value.value[j])
  {
    AllRender(files, selected, page, effect);
    PathsInOrder(tempDir, |selected|);
    var paths := Paths(tempDir, |selected|);
    forall i, j | 0 <= i < j < |selected| ensures paths[i] != paths[j] {
      FilePathsDistinct(tempDir, i, j);
    }
  }

  /** Writing n pages and then presenting their files: n writes in order,
      then the files opened in order with n - 1 pauses. */
  lemma WritesThenOpens(paths: seq<string>, pages: seq<Page>, hold: nat)
    requires |paths| == |pages| > 0
    ensures var log := Writes(paths, pages) + Presentation(paths, hold);
            var n := |pages|;
            |log| == 3 * n - 1 && SleepCount(log) == n - 1 &&
            (forall i :: 0 <= i < n ==> log[i] == Write(paths[i], pages[i])) &&
            (forall i :: 0 <= i < n ==> log[n + 2 * i] == Open(Url(paths[i])))
  {
    var n := |pages|;
    var writes := Writes(paths, pages);
    var shown := Presentation(paths, hold);
    WritesInOrder(paths, pages);
    PresentationShape(paths, hold);
    SleepCountAppend(writes, shown);
    forall i | 0 <= i < n ensures (writes + shown)[i] == Write(paths[i], pages[i]) {
      assert (writes + shown)[i] == writes[i];
    }
    forall i | 0 <= i < n ensures (writes + shown)[n + 2 * i] == Open(Url(paths[i])) {
      assert (writes + shown)[n + 2 * i] == shown[2 * i];
    }
  }

  /** ... and the log writes each entry's page to its file, then presents the
      files: n writes, then 2n - 1 steps holding n - 1 pauses. */
  lemma StandaloneWritesThenOpens(files: map<string, Clip>, selected: seq<Entry>, tempDir: string,
                                  hold: nat, page: Renderer, effect: StoreUpdate)
    requires |selected| > 0
    requires forall i :: 0 <= i < |selected| ==> page(selected[i]).Ok?
    ensures var (log, _, r) := Standalone(files, selected, tempDir, hold, page, effect);
            r.Ok? && r.value.Some? && |r.value.value| == |selected| &&
            |log| == 3 * |selected| - 1 && SleepCount(log) == |selected| - 1 &&
            (forall i :: 0 <= i < |selected| ==> log[i] == Write(r.value.value[i], page(selected[i]).value)) &&
            log[|selected|..] == Presentation(r.value.value, hold)
  {
    var b := BuildPages(files, selected, page, effect);
    AllRender(files, selected, page, effect);
    var n := |selected|;
    var paths := Paths(tempDir, n);
    var writes := Writes(paths, b.pages);
    var shown := Presentation(paths, hold);
    assert Standalone(files, selected, tempDir, hold, page, effect) == (writes + shown, b.files, Ok(Some(paths)));
    WritesThenOpens(paths, b.pages, hold);
    forall i | 0 <= i < n ensures (writes + shown)[i] == Write(paths[i], page(selected[i]).value) {
      assert Ok(b.pages[i]) == page(selected[i]);
    }
    WritesInOrder(paths, b.pages);
    assert (writes + shown)[n..] == shown;
  }

  /** `view_trigger_standalone`, with the selection, the temporary directory and
      the pause given. */
  method ViewTriggerStandalone(store: AudioCache.AudioStore, selected: seq<Entry>, tempDir: string,
                               holdTime: nat, o: Oracles)
    returns (r: Result<Option<seq<string>>, BuildError>, log: seq<Action>)
    requires store.Valid()
    modifies store
    ensures store.Valid()
    ensures (log, store.files, r) == Standalone(old(store.files), selected, tempDir, holdTime, PageOf(o), EffectOf(o))
  {
    log := [];
    if |selected| == 0 {
      return Ok(None), log;
    }
    var failure, htmlFiles;
    failure, htmlFiles, log := WritePages(store, selected, tempDir, o, PageOf(o), EffectOf(o));
    if failure.Some? {
      return Err(failure.value), log;
    }
    var shown := OpenPages(htmlFiles, holdTime);
    log := log + shown;
    r := Ok(Some(htmlFiles));
  }

  /** The first loop of `view_trigger_standalone`: each entry rendered and its
      page written to the file of its position, until a rendering raises. */
  method WritePages(store: AudioCache.AudioStore, selected: seq<Entry>, tempDir: string, o: Oracles,
                    ghost page: Renderer, ghost effect: StoreUpdate)
    returns (failure: Option<BuildError>, htmlFiles: seq<string>, log: seq<Action>)
    requires store.Valid() && Renders(page, effect, o)
    modifies store
    ensures store.Valid()
    ensures var b := BuildPages(old(store.files), selected, page, effect);
            store.files == b.files && failure == b.failure &&
            htmlFiles == Paths(tempDir, |b.pages|) && log == Writes(htmlFiles, b.pages)
  {
    log := [];
    htmlFiles := [];
    ghost var pages: seq<Page> := [];
    var idx := 0;
    while idx < |selected|
      invariant 0 <= idx <= |selected| && |pages| == idx
      invariant store.Valid()
      invariant BuildPages(old(store.files), selected[..idx], page, effect) == Built(pages, store.files, None)
      invariant htmlFiles == Paths(tempDir, idx) && log == Writes(htmlFiles, pages)
    {
      ghost var before := store.files;
      var content := RenderEntry(store, selected[idx], o, page, effect);
      if content.Err? {
        RenderErr(old(store.files), selected, idx, pages, before, page, effect);
        return Some(content.error), htmlFiles, log;
      }
      RenderOk(old(store.files), selected, idx, pages, before, page, effect);
      var htmlFile := FilePath(tempDir, idx);
      WritesSnoc(htmlFiles, pages, htmlFile, content.value);
      log := log + [Write(htmlFile, content.value)];
      htmlFiles := htmlFiles + [htmlFile];
      pages := pages + [content.value];
      idx := idx + 1;
    }
    assert selected[..idx] == selected;
    failure := None;
  }

  /** The second loop of `view_trigger_standalone`: each file opened in turn,
      with a pause after every one but the last. */
  method OpenPages(htmlFiles: seq<string>, holdTime: nat) returns (log: seq<Action>)
    ensures log == Presentation(htmlFiles, holdTime)
  {
    log := [];
    for idx := 0 to |htmlFiles|
      invariant log == PresentedUpTo(htmlFiles, idx, holdTime)
    {
      log := log + [Open(Url(htmlFiles[idx]))];
      if idx < |htmlFiles| - 1 {
        log := log + [Sleep(holdTime)];
      }
    }
  }

  // ---------------------------------------------------------------------------
  // The Streamlit presenter.

  /** The pause after each embedded page, in seconds. */
  const StreamlitHold: nat := 10

  /** Each page embedded, each followed by a pause, the last one included. */
  function Embeds(pages: seq<Page>): seq<Action>
  {
    if pages == [] then []
    else Embeds(pages[..|pages| - 1]) + [Embed(pages[|pages| - 1]), Sleep(StreamlitHold)]
  }

  /** One more page embedded, and one more pause. */
  lemma EmbedsSnoc(pages: seq<Page>, p: Page)
    ensures Embeds(pages + [p]) == Embeds(pages) + [Embed(p), Sleep(StreamlitHold)]
  {
    assert (pages + [p])[..|pages|] == pages;
  }

  /** n embedded pages in order, each followed by a pause: n pauses, one more
      than the standalone presenter makes. */
  lemma {:induction false} EmbedsShape(pages: seq<Page>)
    ensures var log := Embeds(pages);
            |log| == 2 * |pages| && SleepCount(log) == |pages| &&
            (forall i :: 0 <= i < |pages| ==> log[2 * i] == Embed(pages[i])) &&
            (forall i :: 0 <= i < |pages| ==> log[2 * i + 1] == Sleep(StreamlitHold))
  {
    if pages != [] {
      var init := pages[..|pages| - 1];
      EmbedsShape(init);
      var prev := Embeds(init);
      var tail: seq<Action> := [Embed(pages[|pages| - 1]), Sleep(StreamlitHold)];
      SleepCountAppend(prev, tail);
      var one: seq<Action> := [Embed(pages[|pages| - 1])];
      assert one[..0] == [] && tail[..1] == one;
      assert SleepCount(one) == 0;
      assert SleepCount(tail) == 1;
      var log := prev + tail;
      forall i | 0 <= i < |pages| ensures log[2 * i] == Embed(pages[i]) && log[2 * i + 1] == Sleep(StreamlitHold) {
        if i < |init| { assert init[i] == pages[i]; }
      }
    }
  }

  /** The whole run of `view_trigger`: without Streamlit, the standalone
      presenter with its default pause (its list of files is dropped); with
      it, the pages embedded one by one. */
  function StreamlitRun(files: map<string, Clip>, available: bool, selected: seq<Entry>, tempDir: string,
                        page: Renderer, effect: StoreUpdate)
    : (r: (seq<Action>, map<string, Clip>, Result<(), BuildError>))
    ensures r.2.Ok? && |selected| > 0 ==>
              SleepCount(r.0) == if available then |selected| else |selected| - 1
  {
    if !available then
      var (log, after, r) := Standalone(files, selected, tempDir, StreamlitHold, page, effect);
      (log, after, if r.Err? then Err(r.error) else Ok(()))
    else EmbedRun(files, selected, page, effect)
  }

  /** The Streamlit branch: the pages embedded one by one until a rendering raises. */
  function EmbedRun(files: map<string, Clip>, selected: seq<Entry>, page: Renderer, effect: StoreUpdate)
    : (r: (seq<Action>, map<string, Clip>, Result<(), BuildError>))
    ensures r.2.Ok? ==> |r.0| == 2 * |selected| && SleepCount(r.0) == |selected|
  {
    var b := BuildPages(files, selected, page, effect);
    EmbedsShape(b.pages);
    (Embeds(b.pages), b.files, if b.failure.Some? then Err(b.failure.value) else Ok(()))
  }

  /** With Streamlit, a selection whose entries all render embeds every page in
      order and pauses after each one, the last included: n pauses for n entries. */
  lemma StreamlitPausesAfterEvery(files: map<string, Clip>, selected: seq<Entry>, tempDir: string,
                                  page: Renderer, effect: StoreUpdate)
    requires forall i :: 0 <= i < |selected| ==> page(selected[i]).Ok?
    ensures var (log, _, r) := StreamlitRun(files, true, selected, tempDir, page, effect);
            r.Ok? && |log| == 2 * |selected| && SleepCount(log) == |selected| &&
            (forall i :: 0 <= i < |selected| ==> log[2 * i] == Embed(page(selected[i]).value)) &&
            (forall i :: 0 <= i < |selected| ==> log[2 * i + 1] == Sleep(StreamlitHold))
  {
    AllRender(files, selected, page, effect);
    EmbedsShape(BuildPages(files, selected, page, effect).pages);
  }

  /** `view_trigger`, with whether Streamlit could be imported, the selection
      and the temporary directory given. */
  method ViewTrigger(store: AudioCache.AudioStore, available: bool, selected: seq<Entry>, tempDir: string,
                     o: Oracles)
    returns (r: Result<(), BuildError>, log: seq<Action>)
    requires store.Valid()
    modifies store
    ensures store.Valid()
    ensures (log, store.files, r) == StreamlitRun(old(store.files), available, selected, tempDir, PageOf(o), EffectOf(o))
  {
    if !available {
      var outcome;
      outcome, log := ViewTriggerStandalone(store, selected, tempDir, StreamlitHold, o);
      r := if outcome.Err? then Err(outcome.error) else Ok(());
      return;
    }
    var failure;
    failure, log := EmbedPages(store, selected, o, PageOf(o), EffectOf(o));
    r := if failure.Some? then Err(failure.value) else Ok(());
  }

  /** The Streamlit branch of `view_trigger`: each page rendered and embedded
      in turn, each followed by a pause. */
  method EmbedPages(store: AudioCache.AudioStore, selected: seq<Entry>, o: Oracles,
                    ghost page: Renderer, ghost effect: StoreUpdate)
    returns (failure: Option<BuildError>, log: seq<Action>)
    requires store.Valid() && Renders(page, effect, o)
    modifies store
    ensures store.Valid()
    ensures var b := BuildPages(old(store.files), selected, page, effect);
            store.files == b.files && failure == b.failure && log == Embeds(b.pages)
  {
    log := [];
    ghost var pages: seq<Page> := [];
    var idx := 0;
    while idx < |selected|
      invariant 0 <= idx <= |selected| && |pages| == idx
      invariant store.Valid()
      invariant BuildPages(old(store.files), selected[..idx], page, effect) == Built(pages, store.files, None)
      invariant log == Embeds(pages)
    {
      ghost var before := store.files;
      var content := RenderEntry(store, selected[idx], o, page, effect);
      if content.Err? {
        RenderErr(old(store.files), selected, idx, pages, before, page, effect);
        return Some(content.error), log;
      }
      RenderOk(old(store.files), selected, idx, pages, before, page, effect);
      log := log + [Embed(content.value), Sleep(StreamlitHold)];
      pages := pages + [content.value];
      EmbedsSnoc(pages[..idx], content.value);
      assert pages[..idx] + [content.value] == pages;
      idx := idx + 1;
    }
    assert selected[..idx] == selected;
    failure := None;
  }
}
