/**
 * The message and callback handlers (bot/handlers/cadastral.py). Every chat
 * send becomes an entry of an outbox; the registry lookup, the map plotter,
 * the clock and the time formatting are the externals bundled in `Env`.
 * The functions FetchStep, TextStep and CallbackStep say what one handler
 * call sends, what the shared cache holds afterwards, which keys the registry
 * was asked for and whether an exception escaped; the class CadastralBot runs
 * the same steps one statement at a time and is proved against them.
 */
module Cadastral {
  import opened Wrappers
  import opened Cache
  import opened Formatter

  // ---------------------------------------------------------------------------
  // Input normalisation: Python's str.strip()

  /** Python's whitespace characters (those for which str.isspace holds). */
  const PythonWhitespace: set<char> := {
    '\t', '\n', '\U{0B}', '\U{0C}', '\r', '\U{1C}', '\U{1D}', '\U{1E}', '\U{1F}', ' ',
    '\U{85}', '\U{A0}', '\U{1680}',
    '\U{2000}', '\U{2001}', '\U{2002}', '\U{2003}', '\U{2004}', '\U{2005}',
    '\U{2006}', '\U{2007}', '\U{2008}', '\U{2009}', '\U{200A}',
    '\U{2028}', '\U{2029}', '\U{202F}', '\U{205F}', '\U{3000}' }

  predicate IsSpace(c: char)
  {
    c in PythonWhitespace
  }

  /** The text without its leading whitespace. */
  function TrimStart(s: string): (r: string)
    ensures |r| <= |s|
  {
    if s != [] && IsSpace(s[0]) then TrimStart(s[1..]) else s
  }

  /** The text without its trailing whitespace. */
  function TrimEnd(s: string): (r: string)
    ensures |r| <= |s|
  {
    if s != [] && IsSpace(s[|s| - 1]) then TrimEnd(s[..|s| - 1]) else s
  }

  /** `message.text.strip()`. */
  function Strip(s: string): (r: string)
    ensures |r| <= |s|
  {
    TrimEnd(TrimStart(s))
  }

  /** TrimStart drops a whitespace prefix and stops at the first other character. */
  lemma {:induction false} TrimStartDropsLeadingSpace(s: string)
    ensures |TrimStart(s)| <= |s| && TrimStart(s) == s[|s| - |TrimStart(s)|..]
    ensures forall i :: 0 <= i < |s| - |TrimStart(s)| ==> IsSpace(s[i])
    ensures TrimStart(s) == [] || !IsSpace(TrimStart(s)[0])
  {
    if s != [] && IsSpace(s[0]) {
      TrimStartDropsLeadingSpace(s[1..]);
      var r := TrimStart(s[1..]);
      forall i | 0 <= i < |s| - |r| ensures IsSpace(s[i]) {
        if i > 0 { assert s[i] == s[1..][i - 1]; }
      }
    }
  }

  /** TrimEnd drops a whitespace suffix and stops at the last other character. */
  lemma {:induction false} TrimEndDropsTrailingSpace(s: string)
    ensures |TrimEnd(s)| <= |s| && TrimEnd(s) == s[..|TrimEnd(s)|]
    ensures forall i :: |TrimEnd(s)| <= i < |s| ==> IsSpace(s[i])
    ensures TrimEnd(s) == [] || !IsSpace(TrimEnd(s)[|TrimEnd(s)| - 1])
  {
    if s != [] && IsSpace(s[|s| - 1]) {
      var p := s[..|s| - 1];
      TrimEndDropsTrailingSpace(p);
      var r := TrimEnd(p);
      assert r == s[..|r|];
      forall i | |r| <= i < |s| ensures IsSpace(s[i]) {
        if i < |s| - 1 { assert s[i] == p[i]; }
      }
    }
  }

  lemma StripIsInfix(s: string)
    ensures |s| - |TrimStart(s)| + |Strip(s)| <= |s|
    ensures Strip(s) == s[|s| - |TrimStart(s)|..|s| - |TrimStart(s)| + |Strip(s)|]
  {
    var t := TrimStart(s);
    TrimStartDropsLeadingSpace(s);
    TrimEndDropsTrailingSpace(t);
    assert t == s[|s| - |t|..];
  }

  /** Whitespace at the end of a suffix is whitespace at the end of the whole text. */
  lemma SuffixSpaces(s: string, a: nat, n: nat)
    requires a <= |s| && n <= |s| - a
    requires forall j :: n <= j < |s| - a ==> IsSpace(s[a..][j])
    ensures forall i :: a + n <= i < |s| ==> IsSpace(s[i])
  {
    forall i | a + n <= i < |s| ensures IsSpace(s[i]) {
      assert s[i] == s[a..][i - a];
    }
  }

  lemma StripDropsTrailingSpace(s: string)
    ensures forall i :: |s| - |TrimStart(s)| + |Strip(s)| <= i < |s| ==> IsSpace(s[i])
  {
    var t := TrimStart(s);
    TrimStartDropsLeadingSpace(s);
    TrimEndDropsTrailingSpace(t);
    SuffixSpaces(s, |s| - |t|, |TrimEnd(t)|);
  }

  lemma StripEndsAreNotSpace(s: string)
    ensures Strip(s) == [] || (!IsSpace(Strip(s)[0]) && !IsSpace(Strip(s)[|Strip(s)| - 1]))
  {
    var t := TrimStart(s);
    TrimStartDropsLeadingSpace(s);
    TrimEndDropsTrailingSpace(t);
    var r := TrimEnd(t);
    if r != [] {
      assert r[0] == t[0];
    }
  }

  /**
   * The key is the message with whitespace cut from both ends and nothing
   * else: a contiguous piece of it, with only whitespace around it, and no
   * whitespace at either of its own ends.
   */
  lemma StripCutsOnlyOuterWhitespace(s: string)
    ensures |s| - |TrimStart(s)| + |Strip(s)| <= |s|
    ensures Strip(s) == s[|s| - |TrimStart(s)|..|s| - |TrimStart(s)| + |Strip(s)|]
    ensures forall i :: 0 <= i < |s| - |TrimStart(s)| ==> IsSpace(s[i])
    ensures forall i :: |s| - |TrimStart(s)| + |Strip(s)| <= i < |s| ==> IsSpace(s[i])
    ensures Strip(s) == [] || (!IsSpace(Strip(s)[0]) && !IsSpace(Strip(s)[|Strip(s)| - 1]))
  {
    TrimStartDropsLeadingSpace(s);
    StripIsInfix(s);
    StripDropsTrailingSpace(s);
    StripEndsAreNotSpace(s);
  }

  /** Stripping twice is stripping once. */
  lemma StripIdempotent(s: string)
    ensures Strip(Strip(s)) == Strip(s)
  {
    var r := Strip(s);
    StripCutsOnlyOuterWhitespace(s);
    if r != [] {
      assert TrimStart(r) == r;
      assert TrimEnd(r) == r;
    }
  }

  // ---------------------------------------------------------------------------
  // The refresh button's callback data

  const RefreshPrefix := "refresh:"

  /** `f"refresh:{cadastral_number}"`. */
  function RefreshData(key: string): (r: string)
    ensures |r| == |RefreshPrefix| + |key|
    ensures r[..|RefreshPrefix|] == RefreshPrefix && r[|RefreshPrefix|..] == key
  {
    RefreshPrefix + key
  }

  /** `data[len("refresh:"):]` when `data.startswith("refresh:")`, else nothing. */
  function ParseRefresh(data: string): (r: Option<string>)
    ensures r.Some? ==> data == RefreshData(r.value)
    ensures forall key :: data == RefreshData(key) ==> r == Some(key)
  {
    if |RefreshPrefix| <= |data| && data[..|RefreshPrefix|] == RefreshPrefix
    then Some(data[|RefreshPrefix|..])
    else None
  }

  /** Parsing the data of a refresh button gives back exactly its key. */
  lemma RefreshRoundTrip(key: string)
    ensures ParseRefresh(RefreshData(key)) == Some(key)
  {
  }

  // ---------------------------------------------------------------------------
  // Externals and outputs

  /** What `Nspd().find(number)` can come back with. */
  datatype FindResult =
    | Found(feature: Feature)    // a feature record
    | Falsy                      // None or another falsy value
    | Code204                    // a dict whose "code" is 204
    | Raise(message: string)     // an exception, with its str(e)

  /** `plot_polygon`: the map was saved as `<key>_map.png`, or it raised. */
  datatype PlotResult = Saved | PlotFailed(message: string)

  /**
   * The environment of one handler call: the registry, the plotter, the clock
   * reading that `cache.set` would take, and the formatting of a stored time
   * in the Moscow time zone.
   */
  datatype Env = Env(
    find: string -> FindResult,
    plot: (seq<Ring>, string) -> PlotResult,
    now: Time,
    showTime: Time -> string)

  datatype Button = Button(text: string, callbackData: string)

  /** One send to the chat. */
  datatype Output =
    | Answer(text: string)                                // message.answer(text)
    | MarkdownAnswer(text: string, button: Option<Button>) // message.answer(text, parse_mode="Markdown", ...)
    | Photo(file: string)                                 // message.answer_photo(FSInputFile(file))
    | CallbackAnswer(text: string)                        // callback_query.answer(text)

  /** Whether the handler returned, or an exception escaped it. */
  datatype Completion = Done | Uncaught(message: string)

  /** What one handler call did. */
  datatype Step = Step(sent: seq<Output>, table: Table<Feature>, queried: seq<string>, completion: Completion)

  const NotFoundText := "❌ Объект с таким кадастровым номером не найден."
  const ErrorPrefix := "❌ Ошибка при получении данных: "
  const SearchingPrefix := "🔍 Ищу информацию для кадастрового номера: "
  const RefreshingText := "🔄 Обновляю информацию..."
  const RefreshLabel := "🔄 Обновить информацию"

  const CacheNotePrefix := "\n\n🔁 *Данные из кэша от:* `"

  /** The error prefix followed by exactly the message. */
  function ErrorText(message: string): (r: string)
    ensures |r| == |ErrorPrefix| + |message|
    ensures r[..|ErrorPrefix|] == ErrorPrefix && r[|ErrorPrefix|..] == message
  {
    ErrorPrefix + message
  }

  /** The searching prefix followed by exactly the key. */
  function SearchingText(key: string): (r: string)
    ensures |r| == |SearchingPrefix| + |key|
    ensures r[..|SearchingPrefix|] == SearchingPrefix && r[|SearchingPrefix|..] == key
  {
    SearchingPrefix + key
  }

  /** The note on a cached answer: the time in backquotes after a blank line. */
  function CacheNote(time: string): (r: string)
    ensures |r| == |CacheNotePrefix| + |time| + 1
    ensures r[..|CacheNotePrefix|] == CacheNotePrefix
    ensures r[|CacheNotePrefix|..|r| - 1] == time && r[|r| - 1] == '`'
  {
    CacheNotePrefix + time + "`"
  }

  /** The refresh button: its data parses back to the key it was made for. */
  function RefreshButton(key: string): (r: Button)
    ensures r.text == RefreshLabel
    ensures ParseRefresh(r.callbackData) == Some(key)
  {
    RefreshRoundTrip(key);
    Button(RefreshLabel, RefreshData(key))
  }
  function MapFile(key: string): string { key + "_map.png" }

  // ---------------------------------------------------------------------------
  // The handlers as functions of their inputs and the cache table

  /** What the fetch path sends after the record was stored. */
  function Delivery(env: Env, key: string, feat: Feature): (r: seq<Output>)
    ensures 1 <= |r| <= 2
    ensures r[0].MarkdownAnswer? <==> FormatCadastralInfo(feat).Success?
  {
    match FormatCadastralInfo(feat)
    case Failure(e) => [Answer(ErrorText(e.Message()))]
    case Success((info, rings)) =>
      [MarkdownAnswer(info, None)] +
      if rings == [] then []
      else
        match env.plot(rings, key)
        case Saved => [Photo(MapFile(key))]
        case PlotFailed(m) => [Answer(ErrorText(m))]
  }

  /** `fetch_and_send_real_data`: every exception inside it becomes an error message. */
  function FetchStep(env: Env, key: string, table: Table<Feature>): (r: Step)
    ensures r.completion == Done && r.queried == [key]
    ensures 1 <= |r.sent| <= 2
    ensures !env.find(key).Found? ==> r.table == table
  {
    match env.find(key)
    case Falsy => Step([Answer(NotFoundText)], table, [key], Done)
    case Code204 => Step([Answer(NotFoundText)], table, [key], Done)
    case Raise(m) => Step([Answer(ErrorText(m))], table, [key], Done)
    case Found(feat) => Step(Delivery(env, key, feat), Store(table, key, feat, env.now), [key], Done)
  }

  /** The cache-hit branch: nothing in it is caught. */
  function HitReplies(env: Env, key: string, entry: (Feature, Time)): (r: (seq<Output>, Completion))
    ensures |r.0| <= 2
    ensures r.0 == [] <==> FormatCadastralInfo(entry.0).Failure?
    ensures r.0 != [] ==> r.0[0].MarkdownAnswer? && r.0[0].button == Some(RefreshButton(key))
    ensures var f := FormatCadastralInfo(entry.0);
      Photo(MapFile(key)) in r.0 <==> f.Success? && f.value.1 != [] && env.plot(f.value.1, key) == Saved
    ensures |r.0| == 2 ==> r.0[1] == Photo(MapFile(key))
  {
    match FormatCadastralInfo(entry.0)
    case Failure(e) => ([], Uncaught(e.Message()))
    case Success((info, rings)) =>
      var reply := MarkdownAnswer(info + CacheNote(env.showTime(entry.1)), Some(RefreshButton(key)));
      if rings == [] then ([reply], Done)
      else
        match env.plot(rings, key)
        case Saved => ([reply, Photo(MapFile(key))], Done)
        case PlotFailed(m) => ([reply], Uncaught(m))
  }

  /** `get_cadastral_info` on a text message. */
  function TextStep(env: Env, text: string, table: Table<Feature>): (r: Step)
    ensures r.sent != [] && r.sent[0] == Answer(SearchingPrefix + Strip(text))
    ensures r.queried == (if Strip(text) in table then [] else [Strip(text)])
  {
    var key := Strip(text);
    Prefixed(Answer(SearchingText(key)),
      if key in table then HitStep(env, key, table) else FetchStep(env, key, table))
  }

  /** The cache-hit branch as a step: the table is untouched and the registry is not asked. */
  function HitStep(env: Env, key: string, table: Table<Feature>): Step
    requires key in table
  {
    var hit := HitReplies(env, key, table[key]);
    Step(hit.0, table, [], hit.1)
  }

  /** A step that first sends one more message. */
  function Prefixed(o: Output, s: Step): Step
  {
    Step([o] + s.sent, s.table, s.queried, s.completion)
  }

  /** `process_callback` on a button press. */
  function CallbackStep(env: Env, data: string, table: Table<Feature>): (r: Step)
    ensures r.completion == Done
    ensures ParseRefresh(data).None? ==> r.sent == [] && r.table == table && r.queried == []
    ensures ParseRefresh(data).Some? ==>
      r.sent != [] && r.sent[0] == CallbackAnswer(RefreshingText) && r.queried == [ParseRefresh(data).value]
  {
    match ParseRefresh(data)
    case None => Step([], table, [], Done)
    case Some(key) => Prefixed(CallbackAnswer(RefreshingText), FetchStep(env, key, table))
  }

  // ---------------------------------------------------------------------------
  // Properties of the handlers

  /** A falsy result or code 204: one not-found message, no cache write, no photo. */
  lemma NotFoundSendsOneMessage(env: Env, key: string, table: Table<Feature>)
    requires env.find(key).Falsy? || env.find(key).Code204?
    ensures FetchStep(env, key, table).sent == [Answer(NotFoundText)]
    ensures FetchStep(env, key, table).table == table
  {
  }

  /** A registry exception: one error message with its text, no cache write. */
  lemma RegistryErrorIsReported(env: Env, key: string, table: Table<Feature>)
    requires env.find(key).Raise?
    ensures FetchStep(env, key, table).sent == [Answer(ErrorPrefix + env.find(key).message)]
    ensures FetchStep(env, key, table).table == table
  {
  }

  /**
   * A found record is stored under the key with the clock reading, whatever
   * happens after, and no other entry changes.
   */
  lemma FoundRecordIsCached(env: Env, key: string, table: Table<Feature>)
    requires env.find(key).Found?
    ensures var s := FetchStep(env, key, table);
      && Lookup(s.table, key) == Some((env.find(key).feature, env.now))
      && (forall k :: k != key ==> Lookup(s.table, k) == Lookup(table, k))
  {
  }

  /**
   * A found record that formats is sent first, as the info text; a photo of
   * `<key>_map.png` follows exactly when there are rings and the plot was saved.
   */
  lemma FoundRecordIsSent(env: Env, key: string, table: Table<Feature>)
    requires env.find(key).Found? && FormatCadastralInfo(env.find(key).feature).Success?
    ensures var s, f := FetchStep(env, key, table), FormatCadastralInfo(env.find(key).feature);
      && s.sent[0] == MarkdownAnswer(f.value.0, None)
      && (Photo(MapFile(key)) in s.sent <==> f.value.1 != [] && env.plot(f.value.1, key) == Saved)
  {
    var s, f := FetchStep(env, key, table), FormatCadastralInfo(env.find(key).feature);
    assert s.sent == Delivery(env, key, env.find(key).feature);
    if Photo(MapFile(key)) in s.sent {
      assert f.value.1 != [];
    }
  }

  /**
   * An exception raised after `cache.set` (while formatting) gives one error
   * message with its text, and the cache entry stays written.
   */
  lemma ErrorAfterCacheWriteKeepsEntry(env: Env, key: string, table: Table<Feature>)
    requires env.find(key).Found? && FormatCadastralInfo(env.find(key).feature).Failure?
    ensures var s := FetchStep(env, key, table);
      && s.sent == [Answer(ErrorPrefix + FormatCadastralInfo(env.find(key).feature).error.Message())]
      && key in s.table && s.table[key] == (env.find(key).feature, env.now)
  {
  }

  /**
   * A plot failure on the fetch path also comes after `cache.set`: the info is
   * sent, then one error message with the plotter's text, and the entry stays.
   */
  lemma PlotFailureAfterCacheWriteIsReported(env: Env, key: string, table: Table<Feature>)
    requires env.find(key).Found?
    requires FormatCadastralInfo(env.find(key).feature).Success?
    requires FormatCadastralInfo(env.find(key).feature).value.1 != []
    requires env.plot(FormatCadastralInfo(env.find(key).feature).value.1, key).PlotFailed?
    ensures var s, f := FetchStep(env, key, table), FormatCadastralInfo(env.find(key).feature);
      && s.sent == [MarkdownAnswer(f.value.0, None), Answer(ErrorText(env.plot(f.value.1, key).message))]
      && key in s.table && s.table[key] == (env.find(key).feature, env.now)
  {
  }

  /**
   * On a cache hit the registry is not asked and the cache is untouched; the
   * info is the cached record's text, the stored time's annotation, and one
   * button whose data is "refresh:" followed by the key.
   */
  lemma CacheHitServesStoredRecord(env: Env, text: string, table: Table<Feature>)
    requires Strip(text) in table
    ensures var s, key := TextStep(env, text, table), Strip(text);
      && s.queried == [] && s.table == table
      && (FormatCadastralInfo(table[key].0).Success? ==>
            |s.sent| >= 2 &&
            s.sent[1] == MarkdownAnswer(
              FormatCadastralInfo(table[key].0).value.0 + CacheNote(env.showTime(table[key].1)),
              Some(Button(RefreshLabel, "refresh:" + key))))
  {
  }

  /** On a cache hit a failing plot is not caught: the exception escapes the handler. */
  lemma HitPlotFailureEscapes(env: Env, text: string, table: Table<Feature>)
    requires Strip(text) in table
    requires FormatCadastralInfo(table[Strip(text)].0).Success?
    requires FormatCadastralInfo(table[Strip(text)].0).value.1 != []
    requires env.plot(FormatCadastralInfo(table[Strip(text)].0).value.1, Strip(text)).PlotFailed?
    ensures var s := TextStep(env, text, table);
      && s.completion == Uncaught(env.plot(FormatCadastralInfo(table[Strip(text)].0).value.1, Strip(text)).message)
      && |s.sent| == 2 && !s.sent[1].Answer?
  {
  }

  /** Callback data without the prefix: no output, no fetch, no cache change. */
  lemma ForeignCallbackIgnored(env: Env, data: string, table: Table<Feature>)
    requires !(|RefreshPrefix| <= |data| && data[..|RefreshPrefix|] == RefreshPrefix)
    ensures CallbackStep(env, data, table) == Step([], table, [], Done)
  {
  }

  /**
   * A refresh goes straight to the registry for the button's key, even when
   * the key is cached, and a found record overwrites the cache entry.
   */
  lemma RefreshBypassesCache(env: Env, key: string, table: Table<Feature>)
    ensures var s := CallbackStep(env, RefreshData(key), table);
      && s.queried == [key]
      && s.sent == [CallbackAnswer(RefreshingText)] + FetchStep(env, key, table).sent
      && (env.find(key).Found? ==> s.table == table[key := (env.find(key).feature, env.now)])
  {
    RefreshRoundTrip(key);
  }

  /**
   * After a successful fetch, the same text asked again is served from the
   * cache: no second registry call, and the annotation shows the fetch time.
   */
  lemma SecondRequestHitsCache(env1: Env, env2: Env, text: string, table: Table<Feature>)
    requires Strip(text) !in table && env1.find(Strip(text)).Found?
    requires FormatCadastralInfo(env1.find(Strip(text)).feature).Success?
    ensures var s1 := TextStep(env1, text, table);
      var s2 := TextStep(env2, text, s1.table);
      && s1.queried == [Strip(text)]
      && s2.queried == []
      && s2.sent[1] == MarkdownAnswer(
           FormatCadastralInfo(env1.find(Strip(text)).feature).value.0 + CacheNote(env2.showTime(env1.now)),
           Some(RefreshButton(Strip(text))))
  {
  }

  /**
   * A record without a cost is cached before its formatting raises; every
   * later text request for it hits the cache and raises again, uncaught,
   * after the "searching" message.
   */
  lemma CostlessRecordStaysBroken(env1: Env, env2: Env, text: string, table: Table<Feature>)
    requires Strip(text) !in table && env1.find(Strip(text)).Found?
    requires env1.find(Strip(text)).feature.options.costValue.None?
    requires ExtractRings(env1.find(Strip(text)).feature.geometry).Success?
    ensures var s1 := TextStep(env1, text, table);
      var s2 := TextStep(env2, text, s1.table);
      && s1.sent == [Answer(SearchingText(Strip(text))), Answer(ErrorText("Cannot specify ',' with 's'."))]
      && Strip(text) in s1.table
      && s2.sent == [Answer(SearchingText(Strip(text)))]
      && s2.queried == []
      && s2.completion == Uncaught("Cannot specify ',' with 's'.")
  {
    MissingCostRaises(env1.find(Strip(text)).feature);
  }

  // ---------------------------------------------------------------------------
  // The handlers, statement by statement

  /** Associativity of sequence concatenation; the handler methods call it to keep their proofs small. */
  lemma ConcatAssoc<T>(a: seq<T>, b: seq<T>, c: seq<T>)
    ensures (a + b) + c == a + (b + c)
  {
  }

  class CadastralBot {
    /** The module-level shared cache. */
    const cache: SimpleCache<Feature>
    /** Everything sent so far, in order. */
    var outbox: seq<Output>
    /** The keys the registry was asked for, in order. */
    var queried: seq<string>

    constructor ()
      ensures fresh(cache) && cache.entries == map[]
      ensures outbox == [] && queried == []
    {
      cache := new SimpleCache();
      outbox := [];
      queried := [];
    }

    method Send(o: Output)
      modifies this
      ensures outbox == old(outbox) + [o] && queried == old(queried)
    {
      outbox := outbox + [o];
    }

    method FetchAndSendRealData(env: Env, key: string)
      modifies this, cache
      ensures var s := FetchStep(env, key, old(cache.entries));
        && outbox == old(outbox) + s.sent
        && cache.entries == s.table
        && queried == old(queried) + s.queried
    {
      var found := env.find(key);
      queried := queried + [key];
      if found.Falsy? || found.Code204? {
        Send(Answer(NotFoundText));
        return;
      }
      if found.Raise? {
        Send(Answer(ErrorText(found.message)));
        return;
      }
      var feat := found.feature;
      cache.Set(key, feat, env.now);
      var formatted := FormatCadastralInfo(feat);
      if formatted.Failure? {
        Send(Answer(ErrorText(formatted.error.Message())));
        return;
      }
      var (info, rings) := formatted.value;
      Send(MarkdownAnswer(info, None));
      if rings != [] {
        var plotted := env.plot(rings, key);
        if plotted.PlotFailed? {
          Send(Answer(ErrorText(plotted.message)));
          return;
        }
        Send(Photo(MapFile(key)));
      }
    }

    method ProcessCallback(env: Env, data: string)
      modifies this, cache
      ensures var s := CallbackStep(env, data, old(cache.entries));
        && outbox == old(outbox) + s.sent
        && cache.entries == s.table
        && queried == old(queried) + s.queried
    {
      if |RefreshPrefix| <= |data| && data[..|RefreshPrefix|] == RefreshPrefix {
        var key := data[|RefreshPrefix|..];
        assert ParseRefresh(data) == Some(key);
        ghost var t0 := cache.entries;
        ghost var fetch := FetchStep(env, key, t0);
        assert CallbackStep(env, data, t0) == Prefixed(CallbackAnswer(RefreshingText), fetch);
        Send(CallbackAnswer(RefreshingText));
        FetchAndSendRealData(env, key);
        ConcatAssoc(old(outbox), [CallbackAnswer(RefreshingText)], fetch.sent);
      } else {
        assert ParseRefresh(data) == None;
      }
    }

    /** The cache-hit branch of `get_cadastral_info`; its exceptions are not caught. */
    method AnswerFromCache(env: Env, key: string, entry: (Feature, Time)) returns (c: Completion)
      modifies this
      ensures outbox == old(outbox) + HitReplies(env, key, entry).0
      ensures queried == old(queried) && c == HitReplies(env, key, entry).1
    {
      var (feat, createdAt) := entry;
      var formatted := FormatCadastralInfo(feat);
      if formatted.Failure? {
        return Uncaught(formatted.error.Message());
      }
      var (info, rings) := formatted.value;
      info := info + CacheNote(env.showTime(createdAt));
      var reply := MarkdownAnswer(info, Some(RefreshButton(key)));
      Send(reply);
      if rings != [] {
        var plotted := env.plot(rings, key);
        if plotted.PlotFailed? {
          return Uncaught(plotted.message);
        }
        Send(Photo(MapFile(key)));
      }
      c := Done;
    }

    method GetCadastralInfo(env: Env, text: string) returns (c: Completion)
      modifies this, cache
      ensures var s := TextStep(env, text, old(cache.entries));
        && outbox == old(outbox) + s.sent
        && cache.entries == s.table
        && queried == old(queried) + s.queried
        && c == s.completion
    {
      var key := Strip(text);
      ghost var t0 := cache.entries;
      Send(Answer(SearchingText(key)));
      assert outbox == old(outbox) + [Answer(SearchingText(key))];
      var cached := cache.Get(key);
      if cached.Some? {
        ghost var hit := HitStep(env, key, t0);
        assert TextStep(env, text, t0) == Prefixed(Answer(SearchingText(key)), hit);
        assert cached.value == t0[key];
        c := AnswerFromCache(env, key, cached.value);
        ConcatAssoc(old(outbox), [Answer(SearchingText(key))], hit.sent);
      } else {
        ghost var miss := FetchStep(env, key, t0);
        assert TextStep(env, text, t0) == Prefixed(Answer(SearchingText(key)), miss);
        FetchAndSendRealData(env, key);
        c := Done;
        ConcatAssoc(old(outbox), [Answer(SearchingText(key))], miss.sent);
      }
    }
  }
}
