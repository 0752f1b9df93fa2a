/**
  The chat sampling-configuration form (website/src/components/Chat/ChatConfigForm.tsx):
  preset selection, the plugin lock, saving custom presets, the one-shot
  hydration from the local cache, plugin de-duplication by URL and the
  per-parameter on/off switch.
 */
module ChatConfig {
  import opened Wrappers
  import opened Strings
  import opened Collections

  /** The name that stands for "parameters edited by hand". */
  const UnknownCustomPresetName: String := "__custom__"

  /** Saved custom presets carry this prefix before the name the user typed. */
  const CustomPresetNamePrefix: String := "$$"

  /** The built-in preset forced while a plugin is enabled. */
  const PluginsPresetName: String := "k50-Plugins"

  /** The sampling parameters, in the order the sliders are listed. */
  datatype SamplingKey = Temperature | MaxNewTokens | TopP | RepetitionPenalty | TopK | TypicalP

  /** The fields of the form: the model, the selected plugins and one field per sampling parameter. */
  datatype Field = ModelConfigName | Plugins | Sampling(key: SamplingKey)

  datatype PluginEntry = PluginEntry(url: String, enabled: bool)

  /** A form value; `Null` is a switched-off parameter. */
  datatype FormValue = Text(text: String) | PluginList(entries: seq<PluginEntry>) | Number(value: real) | Null

  type FormValues = map<Field, FormValue>

  datatype ModelParameterConfig = ModelParameterConfig(name: String, samplingParameters: FormValues)

  datatype ModelInfo = ModelInfo(name: String, parameterConfigs: seq<ModelParameterConfig>)

  datatype CustomPreset = CustomPreset(name: String, config: FormValues)

  /** The cached configuration read at mount; an absent entry is `None`. */
  datatype ConfigCache = ConfigCache(
    selectedPresetName: String,
    modelConfigName: String,
    customPresetConfig: FormValues,
    selectedPlugins: Option<seq<PluginEntry>>,
    plugins: Option<seq<PluginEntry>>,
    customPresets: Option<seq<CustomPreset>>)

  /** The slider maximum of each parameter (`max`, 1 where the slider gives none). */
  function SliderMax(key: SamplingKey): real {
    match key
    case Temperature => 2.0
    case MaxNewTokens => 1024.0
    case TopP => 1.0
    case RepetitionPenalty => 3.0
    case TopK => 2000.0
    case TypicalP => 1.0
  }

  predicate StartsWithPrefix(name: String) {
    IsPrefix(CustomPresetNamePrefix, name)
  }

  /** `findPresetName`: the first preset whose parameters equal the config, else `"__custom__"`. */
  function FindPresetName(presets: seq<ModelParameterConfig>, config: FormValues,
                          equal: (FormValues, FormValues) -> bool): (r: String)
    ensures r == UnknownCustomPresetName <==>
            (forall k :: 0 <= k < |presets| ==> !equal(presets[k].samplingParameters, config))
            || (exists k :: 0 <= k < |presets| && equal(presets[k].samplingParameters, config)
                            && presets[k].name == UnknownCustomPresetName
                            && forall j :: 0 <= j < k ==> !equal(presets[j].samplingParameters, config))
    ensures r != UnknownCustomPresetName ==>
            exists k :: 0 <= k < |presets| && presets[k].name == r && equal(presets[k].samplingParameters, config)
                        && forall j :: 0 <= j < k ==> !equal(presets[j].samplingParameters, config)
  {
    match FindIndex(presets, (p: ModelParameterConfig) => equal(p.samplingParameters, config))
    case Some(k) => presets[k].name
    case None => UnknownCustomPresetName
  }

  /** `modelInfos.find(model => model.name === name)`. */
  function ModelNamed(modelInfos: seq<ModelInfo>, name: String): (r: Option<ModelInfo>)
    ensures r.Some? <==> exists k :: 0 <= k < |modelInfos| && modelInfos[k].name == name
    ensures r.Some? ==> r.value in modelInfos && r.value.name == name
  {
    match FindIndex(modelInfos, (m: ModelInfo) => m.name == name)
    case Some(k) => Some(modelInfos[k])
    case None => None
  }

  /** The sampling parameters of the first preset with this name. */
  function PresetNamed(presets: seq<ModelParameterConfig>, name: String): (r: Option<FormValues>)
    ensures r.Some? <==> exists k :: 0 <= k < |presets| && presets[k].name == name
    ensures r.Some? ==> exists k :: 0 <= k < |presets| && presets[k].name == name
                                    && r.value == presets[k].samplingParameters
                                    && forall j :: 0 <= j < k ==> presets[j].name != name
  {
    match FindIndex(presets, (p: ModelParameterConfig) => p.name == name)
    case Some(k) => Some(presets[k].samplingParameters)
    case None => None
  }

  /** The configuration of the first custom preset with this name. */
  function CustomPresetNamed(presets: seq<CustomPreset>, name: String): (r: Option<FormValues>)
    ensures r.Some? <==> exists k :: 0 <= k < |presets| && presets[k].name == name
    ensures r.Some? ==> exists k :: 0 <= k < |presets| && presets[k].name == name
                                    && r.value == presets[k].config
                                    && forall j :: 0 <= j < k ==> presets[j].name != name
  {
    match FindIndex(presets, (p: CustomPreset) => p.name == name)
    case Some(k) => Some(presets[k].config)
    case None => None
  }

  /**
    The dropdown lists the model's presets and then the saved custom presets,
    but `handlePresetChange` searches only the model's presets. Whatever
    saved preset is chosen, the lookup finds nothing and the `!` throws.
   */
  lemma SelectSavedPresetAsWrittenThrows(presets: seq<ModelParameterConfig>, name: String)
    requires forall k :: 0 <= k < |presets| ==> !StartsWithPrefix(presets[k].name)
    ensures PresetNamed(presets, CustomPresetNamePrefix + name).None?
  {
    var saved := CustomPresetNamePrefix + name;
    assert saved[..2] == CustomPresetNamePrefix;
    forall k | 0 <= k < |presets| ensures presets[k].name != saved {
      if presets[k].name == saved {
        assert StartsWithPrefix(presets[k].name);
      }
    }
  }

  /**
    The parameters a preset change applies, with the lookup corrected: the
    model's preset with that name, or else the saved custom preset with it.
    It agrees with the source wherever the source's lookup succeeds, and
    every option of the dropdown other than `__custom__` now resolves.
   */
  function PresetConfig(presets: seq<ModelParameterConfig>, customPresets: seq<CustomPreset>, name: String): (r: Option<FormValues>)
    ensures PresetNamed(presets, name).Some? ==> r == PresetNamed(presets, name)
    ensures PresetNamed(presets, name).None? ==> r == CustomPresetNamed(customPresets, name)
    ensures r.Some? <==> (exists k :: 0 <= k < |presets| && presets[k].name == name)
                         || (exists k :: 0 <= k < |customPresets| && customPresets[k].name == name)
  {
    match PresetNamed(presets, name)
    case Some(config) => Some(config)
    case None => CustomPresetNamed(customPresets, name)
  }

  /** Parameter fields are disabled unless the hand-edited or a custom preset is selected. */
  function ParametersDisabled(selectedPresetName: String): (r: bool)
    ensures r <==> selectedPresetName != UnknownCustomPresetName && !StartsWithPrefix(selectedPresetName)
    ensures StartsWithPrefix(selectedPresetName) ==> !r
  {
    selectedPresetName != UnknownCustomPresetName && !IsPrefix(CustomPresetNamePrefix, selectedPresetName)
  }

  /** The save button appears only for hand-edited parameters. */
  function SaveButtonShown(selectedPresetName: String): (r: bool)
    ensures r ==> !ParametersDisabled(selectedPresetName)
    ensures r <==> selectedPresetName == UnknownCustomPresetName
  {
    selectedPresetName == UnknownCustomPresetName
  }

  /**
    Which selections leave the parameter fields editable: the plugin preset
    disables them, the hand-edited name and every saved custom name do not.
   */
  lemma {:induction false} FieldsEditableFor(name: String)
    ensures ParametersDisabled(PluginsPresetName)
    ensures !ParametersDisabled(UnknownCustomPresetName)
    ensures !ParametersDisabled(CustomPresetNamePrefix + name) && !SaveButtonShown(CustomPresetNamePrefix + name)
  {
    assert PluginsPresetName[0] != CustomPresetNamePrefix[0];
    assert PluginsPresetName[..2][0] != CustomPresetNamePrefix[0];
    assert (CustomPresetNamePrefix + name)[..2] == CustomPresetNamePrefix;
    assert (CustomPresetNamePrefix + name)[0] != UnknownCustomPresetName[0];
  }

  /** No two custom presets share a name. */
  predicate DistinctNames(presets: seq<CustomPreset>) {
    forall i, j :: 0 <= i < j < |presets| ==> presets[i].name != presets[j].name
  }

  /** What `SavePresetButton.handleSave` decides for the text in the input box. */
  datatype SaveOutcome = Ignored | AlreadyExists | Saved(preset: CustomPreset)

  /** The trimmed input, or `None` when there is no input or it is blank. */
  function TrimmedName(input: Option<String>): (r: Option<String>)
    ensures r.Some? ==> input.Some? && r.value == Strip(input.value, IsJsSpace)
    ensures r.Some? ==> |r.value| > 0 && !IsJsSpace(r.value[0]) && !IsJsSpace(Last(r.value))
    ensures r.None? <==> input.None? || |Strip(input.value, IsJsSpace)| == 0
  {
    if input.None? then None
    else
      var name := Strip(input.value, IsJsSpace);
      if |name| == 0 then None else Some(name)
  }

  /**
    `handleSave` as written: the trimmed name is compared with the stored
    names, which all carry the `$$` prefix, so a name the user typed before
    is not recognised.
   */
  function SaveDecisionAsWritten(customPresets: seq<CustomPreset>, input: Option<String>, config: FormValues): SaveOutcome {
    match TrimmedName(input)
    case None => Ignored
    case Some(name) =>
      if FindIndex(customPresets, (p: CustomPreset) => p.name == name).Some? then AlreadyExists
      else Saved(CustomPreset(CustomPresetNamePrefix + name, config))
  }

  /** Saving `foo` when `$$foo` is stored adds a second preset named `$$foo`. */
  lemma SaveAsWrittenDuplicates()
    ensures var stored := [CustomPreset("$$foo", map[])];
            var r := SaveDecisionAsWritten(stored, Some("foo"), map[]);
            r.Saved? && !DistinctNames(stored + [r.preset])
  {
    var stored := [CustomPreset("$$foo", map[])];
    FooIsTrimmed();
    FooIsNotStored(stored);
    var r := SaveDecisionAsWritten(stored, Some("foo"), map[]);
    assert r.preset.name == "$$foo";
    var s := stored + [r.preset];
    assert s[0].name == s[1].name;
  }

  lemma FooIsTrimmed()
    ensures TrimmedName(Some("foo")) == Some("foo")
  {
    var foo: String := "foo";
    assert foo[0] == 'f' && foo[|foo| - 1] == 'o';
    assert !IsJsSpace('f') && !IsJsSpace('o');
    StripUnchanged(foo, IsJsSpace);
    assert Strip(foo, IsJsSpace) == foo;
  }

  lemma FooIsNotStored(stored: seq<CustomPreset>)
    requires stored == [CustomPreset("$$foo", map[])]
    ensures FindIndex(stored, (p: CustomPreset) => p.name == "foo").None?
  {
    assert |stored[0].name| != |"foo"|;
  }

  /** `handleSave` with the duplicate check on the name as it would be stored. */
  function SaveDecision(customPresets: seq<CustomPreset>, input: Option<String>, config: FormValues): (r: SaveOutcome)
    ensures r.Ignored? <==> TrimmedName(input).None?
    ensures r.AlreadyExists? <==>
              && TrimmedName(input).Some?
              && exists k :: 0 <= k < |customPresets| && customPresets[k].name == CustomPresetNamePrefix + TrimmedName(input).value
    ensures r.Saved? ==> r.preset == CustomPreset(CustomPresetNamePrefix + TrimmedName(input).value, config)
                         && StartsWithPrefix(r.preset.name)
                         && forall k :: 0 <= k < |customPresets| ==> customPresets[k].name != r.preset.name
  {
    match TrimmedName(input)
    case None => Ignored
    case Some(name) =>
      if FindIndex(customPresets, (p: CustomPreset) => p.name == CustomPresetNamePrefix + name).Some? then AlreadyExists
      else Saved(CustomPreset(CustomPresetNamePrefix + name, config))
  }

  /** Saving through the corrected check keeps custom preset names distinct. */
  lemma SaveKeepsNamesDistinct(customPresets: seq<CustomPreset>, input: Option<String>, config: FormValues)
    requires DistinctNames(customPresets)
    requires SaveDecision(customPresets, input, config).Saved?
    ensures DistinctNames(customPresets + [SaveDecision(customPresets, input, config).preset])
  {
    var p := SaveDecision(customPresets, input, config).preset;
    var s := customPresets + [p];
    forall i, j | 0 <= i < j < |s| ensures s[i].name != s[j].name {
      if j == |customPresets| {
        assert s[i] == customPresets[i];
      } else {
        assert s[i] == customPresets[i] && s[j] == customPresets[j];
      }
    }
  }

  /** `Map.set` semantics: an entry with a URL already present replaces it in place, otherwise it is appended. */
  function Upsert(acc: seq<PluginEntry>, p: PluginEntry): (r: seq<PluginEntry>)
    ensures |r| == |acc| || |r| == |acc| + 1
  {
    match FindIndex(acc, (e: PluginEntry) => e.url == p.url)
    case Some(k) => acc[k := p]
    case None => acc + [p]
  }

  /** `[...new Map(list.map(item => [item.url, item])).values()]`. */
  function DedupByUrl(list: seq<PluginEntry>): (r: seq<PluginEntry>)
    ensures |r| <= |list|
    decreases |list|
  {
    if |list| == 0 then [] else Upsert(DedupByUrl(list[..|list| - 1]), Last(list))
  }

  predicate DistinctUrls(list: seq<PluginEntry>) {
    forall i, j :: 0 <= i < j < |list| ==> list[i].url != list[j].url
  }

  function Urls(list: seq<PluginEntry>): set<String> {
    set k | 0 <= k < |list| :: list[k].url
  }

  lemma UrlsConcat(a: seq<PluginEntry>, b: seq<PluginEntry>)
    ensures Urls(a + b) == Urls(a) + Urls(b)
  {
    var ab := a + b;
    forall u | u in Urls(ab) ensures u in Urls(a) + Urls(b) {
      var k :| 0 <= k < |ab| && ab[k].url == u;
      if k >= |a| {
        assert b[k - |a|].url == u;
      }
    }
    forall u | u in Urls(b) ensures u in Urls(ab) {
      var k :| 0 <= k < |b| && b[k].url == u;
      assert ab[|a| + k].url == u;
    }
    forall u | u in Urls(a) ensures u in Urls(ab) {
      var k :| 0 <= k < |a| && a[k].url == u;
      assert ab[k].url == u;
    }
  }

  /** The last entry of `list` with this URL. */
  function LastWithUrl(list: seq<PluginEntry>, url: String): (r: Option<PluginEntry>)
    ensures r.Some? <==> url in Urls(list)
    ensures r.Some? ==> r.value.url == url
    decreases |list|
  {
    if |list| == 0 then None
    else if Last(list).url == url then Some(Last(list))
    else
      var init := list[..|list| - 1];
      UrlsConcat(init, [Last(list)]);
      assert init + [Last(list)] == list;
      LastWithUrl(init, url)
  }

  /** `r` has one entry per URL of `list`: the last one given for that URL. */
  ghost predicate DedupOf(list: seq<PluginEntry>, r: seq<PluginEntry>) {
    && DistinctUrls(r)
    && Urls(r) == Urls(list)
    && forall k :: 0 <= k < |r| ==> LastWithUrl(list, r[k].url) == Some(r[k])
  }

  lemma LastWithUrlSnoc(init: seq<PluginEntry>, p: PluginEntry, url: String)
    ensures LastWithUrl(init + [p], url) == if p.url == url then Some(p) else LastWithUrl(init, url)
  {
    assert (init + [p])[..|init|] == init;
  }

  /** Upserting an entry whose URL is already present replaces that entry. */
  lemma UpsertReplaceStep(init: seq<PluginEntry>, acc: seq<PluginEntry>, p: PluginEntry, i: nat)
    requires DedupOf(init, acc)
    requires i < |acc| && acc[i].url == p.url
    ensures DedupOf(init + [p], acc[i := p])
  {
    var list, r := init + [p], acc[i := p];
    UrlsConcat(init, [p]);
    assert forall u :: u in Urls([p]) ==> u == p.url;
    assert acc[i].url in Urls(acc);
    assert Urls(r) == Urls(acc) by {
      forall u | u in Urls(acc) ensures u in Urls(r) {
        var k :| 0 <= k < |acc| && acc[k].url == u;
        assert r[k].url == u;
      }
      forall u | u in Urls(r) ensures u in Urls(acc) {
        var k :| 0 <= k < |r| && r[k].url == u;
        assert acc[k].url == u;
      }
    }
    forall k | 0 <= k < |r| ensures LastWithUrl(list, r[k].url) == Some(r[k]) {
      LastWithUrlSnoc(init, p, r[k].url);
    }
  }

  /** Upserting an entry with a new URL appends it. */
  lemma UpsertAppendStep(init: seq<PluginEntry>, acc: seq<PluginEntry>, p: PluginEntry)
    requires DedupOf(init, acc)
    requires forall k :: 0 <= k < |acc| ==> acc[k].url != p.url
    ensures DedupOf(init + [p], acc + [p])
  {
    var list, r := init + [p], acc + [p];
    UrlsConcat(init, [p]);
    UrlsConcat(acc, [p]);
    forall k | 0 <= k < |r| ensures LastWithUrl(list, r[k].url) == Some(r[k]) {
      LastWithUrlSnoc(init, p, r[k].url);
      if k < |acc| {
        assert r[k] == acc[k];
      }
    }
  }

  /** The de-duplicated list has one entry per URL of the input: the last one given for that URL. */
  lemma {:induction false} DedupByUrlCorrect(list: seq<PluginEntry>)
    ensures DistinctUrls(DedupByUrl(list))
    ensures Urls(DedupByUrl(list)) == Urls(list)
    ensures forall k :: 0 <= k < |DedupByUrl(list)| ==> LastWithUrl(list, DedupByUrl(list)[k].url) == Some(DedupByUrl(list)[k])
    decreases |list|
  {
    if |list| > 0 {
      var init, p := list[..|list| - 1], Last(list);
      DedupByUrlCorrect(init);
      var acc := DedupByUrl(init);
      assert init + [p] == list;
      match FindIndex(acc, (e: PluginEntry) => e.url == p.url)
      case Some(i) =>
        UpsertReplaceStep(init, acc, p, i);
      case None =>
        UpsertAppendStep(init, acc, p);
    }
  }

  /** The index of the first entry of `list` with this URL, or `|list|` when there is none. */
  function FirstWithUrl(list: seq<PluginEntry>, url: String): (r: nat)
    ensures r <= |list|
    ensures r < |list| ==> list[r].url == url
    decreases |list|
  {
    if |list| == 0 then 0
    else if list[0].url == url then 0
    else 1 + FirstWithUrl(list[1..], url)
  }

  /** No entry before `FirstWithUrl` has the URL. */
  lemma {:induction false} FirstWithUrlIsFirst(list: seq<PluginEntry>, url: String)
    ensures forall i :: 0 <= i < FirstWithUrl(list, url) ==> list[i].url != url
    decreases |list|
  {
    if |list| > 0 && list[0].url != url {
      FirstWithUrlIsFirst(list[1..], url);
      forall i | 1 <= i < FirstWithUrl(list, url) ensures list[i].url != url {
        assert list[i] == list[1..][i - 1];
      }
    }
  }

  lemma FirstWithUrlFound(list: seq<PluginEntry>, url: String)
    ensures url in Urls(list) <==> FirstWithUrl(list, url) < |list|
  {
    if url in Urls(list) {
      var k :| 0 <= k < |list| && list[k].url == url;
      FirstWithUrlIsFirst(list, url);
    }
  }

  lemma {:induction false} FirstWithUrlSnoc(init: seq<PluginEntry>, p: PluginEntry, url: String)
    ensures FirstWithUrl(init, url) < |init| ==> FirstWithUrl(init + [p], url) == FirstWithUrl(init, url)
    ensures FirstWithUrl(init, url) == |init| && p.url == url ==> FirstWithUrl(init + [p], url) == |init|
    decreases |init|
  {
    if |init| > 0 && init[0].url != url {
      assert (init + [p])[1..] == init[1..] + [p];
      FirstWithUrlSnoc(init[1..], p, url);
    }
  }

  /** The entries of `r` follow the order in which their URLs first occur in `list`. */
  ghost predicate InFirstOccurrenceOrder(list: seq<PluginEntry>, r: seq<PluginEntry>) {
    forall j, k :: 0 <= j < k < |r| ==> FirstWithUrl(list, r[j].url) < FirstWithUrl(list, r[k].url)
  }

  /** Replacing an entry in place keeps the order, since its URL stays where it was. */
  lemma OrderReplaceStep(init: seq<PluginEntry>, acc: seq<PluginEntry>, p: PluginEntry, i: nat)
    requires InFirstOccurrenceOrder(init, acc)
    requires i < |acc| && acc[i].url == p.url
    requires forall k :: 0 <= k < |acc| ==> FirstWithUrl(init + [p], acc[k].url) == FirstWithUrl(init, acc[k].url)
    ensures InFirstOccurrenceOrder(init + [p], acc[i := p])
  {
    var r := acc[i := p];
    forall j, k | 0 <= j < k < |r| ensures FirstWithUrl(init + [p], r[j].url) < FirstWithUrl(init + [p], r[k].url) {
      assert r[j].url == acc[j].url && r[k].url == acc[k].url;
    }
  }

  /** Appending a URL that first occurs at the end keeps the order. */
  lemma OrderAppendStep(list: seq<PluginEntry>, init: seq<PluginEntry>, acc: seq<PluginEntry>, p: PluginEntry)
    requires InFirstOccurrenceOrder(init, acc)
    requires forall k :: 0 <= k < |acc| ==> FirstWithUrl(list, acc[k].url) == FirstWithUrl(init, acc[k].url) < |init|
    requires FirstWithUrl(list, p.url) == |init|
    ensures InFirstOccurrenceOrder(list, acc + [p])
  {
    var r := acc + [p];
    forall j, k | 0 <= j < k < |r| ensures FirstWithUrl(list, r[j].url) < FirstWithUrl(list, r[k].url) {
      assert r[j] == acc[j];
      if k < |acc| {
        assert r[k] == acc[k];
      }
    }
  }

  /** The URLs already kept first occur before the new last entry, and keep that index. */
  lemma {:induction false} KeptUrlsFirstOccurBefore(init: seq<PluginEntry>, p: PluginEntry)
    ensures forall k :: 0 <= k < |DedupByUrl(init)| ==>
              FirstWithUrl(init + [p], DedupByUrl(init)[k].url) == FirstWithUrl(init, DedupByUrl(init)[k].url) < |init|
  {
    var acc := DedupByUrl(init);
    DedupByUrlCorrect(init);
    forall k | 0 <= k < |acc|
      ensures FirstWithUrl(init + [p], acc[k].url) == FirstWithUrl(init, acc[k].url) < |init|
    {
      assert acc[k].url in Urls(acc);
      FirstWithUrlFound(init, acc[k].url);
      FirstWithUrlSnoc(init, p, acc[k].url);
    }
  }

  /** A `Map` lists its keys in insertion order: each URL sits where it first occurs in the input. */
  lemma {:induction false} DedupByUrlKeepsFirstOrder(list: seq<PluginEntry>)
    ensures InFirstOccurrenceOrder(list, DedupByUrl(list))
    decreases |list|
  {
    if |list| > 0 {
      var init, p := list[..|list| - 1], Last(list);
      assert init + [p] == list;
      DedupByUrlKeepsFirstOrder(init);
      KeptUrlsFirstOccurBefore(init, p);
      var acc := DedupByUrl(init);
      match FindIndex(acc, (e: PluginEntry) => e.url == p.url)
      case Some(i) =>
        OrderReplaceStep(init, acc, p, i);
      case None =>
        DedupByUrlCorrect(init);
        assert p.url !in Urls(acc);
        FirstWithUrlFound(init, p.url);
        FirstWithUrlSnoc(init, p, p.url);
        OrderAppendStep(list, init, acc, p);
    }
  }

  /** The test of the `filter` step: the plugin's URL is not a built-in one. */
  function IsCustom(builtInPlugins: seq<PluginEntry>): PluginEntry -> bool {
    (p: PluginEntry) => p.url !in Urls(builtInPlugins)
  }

  /** Cached plugins whose URL is not a built-in one (`findIndex(...) === -1`). */
  function NotBuiltIn(builtInPlugins: seq<PluginEntry>, cached: seq<PluginEntry>): (r: seq<PluginEntry>)
    ensures r == Filter(cached, IsCustom(builtInPlugins))
    ensures forall k :: 0 <= k < |r| ==> r[k].url !in Urls(builtInPlugins)
    ensures Urls(r) == Urls(cached) - Urls(builtInPlugins)
    decreases |cached|
  {
    if |cached| == 0 then []
    else
      var rest := NotBuiltIn(builtInPlugins, cached[1..]);
      UrlsConcat([cached[0]], cached[1..]);
      assert [cached[0]] + cached[1..] == cached;
      if FindIndex(builtInPlugins, (b: PluginEntry) => b.url == cached[0].url).None? then
        UrlsConcat([cached[0]], rest);
        [cached[0]] + rest
      else
        assert cached[0].url in Urls(builtInPlugins);
        rest
  }

  /** The last cached entry for a URL that is not built in survives the filter. */
  lemma {:induction false} LastWithUrlNotBuiltIn(builtInPlugins: seq<PluginEntry>, cached: seq<PluginEntry>, url: String)
    requires url !in Urls(builtInPlugins)
    ensures LastWithUrl(NotBuiltIn(builtInPlugins, cached), url) == LastWithUrl(cached, url)
    decreases |cached|
  {
    if |cached| > 0 {
      var init, x := cached[..|cached| - 1], Last(cached);
      var keep := IsCustom(builtInPlugins);
      var kept := NotBuiltIn(builtInPlugins, init);
      assert init + [x] == cached;
      LastWithUrlNotBuiltIn(builtInPlugins, init, url);
      FilterSnoc(init, x, keep);
      LastWithUrlSnoc(init, x, url);
      if keep(x) {
        assert NotBuiltIn(builtInPlugins, cached) == kept + [x];
        LastWithUrlSnoc(kept, x, url);
      } else {
        assert NotBuiltIn(builtInPlugins, cached) == kept;
        assert x.url in Urls(builtInPlugins);
      }
    }
  }

  /** The plugin list hydration sets: the built-ins, then the other cached plugins, one per URL. */
  function HydratedPlugins(builtInPlugins: seq<PluginEntry>, cached: seq<PluginEntry>): seq<PluginEntry> {
    builtInPlugins + DedupByUrl(NotBuiltIn(builtInPlugins, cached))
  }

  /**
    The hydrated list starts with the built-ins, covers every cached URL,
    and has distinct URLs whenever the built-ins do. Each entry after the
    built-ins is the last cached entry given for its URL.
   */
  lemma HydratedPluginsCorrect(builtInPlugins: seq<PluginEntry>, cached: seq<PluginEntry>)
    ensures var r := HydratedPlugins(builtInPlugins, cached);
            && r[..|builtInPlugins|] == builtInPlugins
            && Urls(r) == Urls(builtInPlugins) + Urls(cached)
            && (forall k :: |builtInPlugins| <= k < |r| ==>
                  r[k].url !in Urls(builtInPlugins) && LastWithUrl(cached, r[k].url) == Some(r[k]))
            && (DistinctUrls(builtInPlugins) ==> DistinctUrls(r))
  {
    var kept := NotBuiltIn(builtInPlugins, cached);
    var custom := DedupByUrl(kept);
    var r := builtInPlugins + custom;
    DedupByUrlCorrect(kept);
    UrlsConcat(builtInPlugins, custom);
    forall k | |builtInPlugins| <= k < |r|
      ensures r[k].url !in Urls(builtInPlugins) && LastWithUrl(cached, r[k].url) == Some(r[k])
    {
      var e := custom[k - |builtInPlugins|];
      assert r[k] == e;
      assert e.url in Urls(kept);
      var j :| 0 <= j < |kept| && kept[j].url == e.url;
      LastWithUrlNotBuiltIn(builtInPlugins, cached, e.url);
    }
    if DistinctUrls(builtInPlugins) {
      forall i, j | 0 <= i < j < |r| ensures r[i].url != r[j].url {
        if j >= |builtInPlugins| {
          assert r[j] == custom[j - |builtInPlugins|];
          assert r[j].url in Urls(custom);
          if i < |builtInPlugins| {
            assert r[i].url in Urls(builtInPlugins);
          }
        }
      }
    }
  }

  /** The parameters hydration applies and the preset name it selects, if any. */
  datatype Hydration = Hydration(params: Option<FormValues>, select: Option<String>)

  /**
    The precedence cascade of `useHydrateChatConfig`: selected plugins first,
    then the hand-edited config, then a custom preset looked up in `presets`,
    then a built-in preset of `base` (the cached model, or the first model).
    A `None` base is the crash of reading a missing first model.
   */
  function HydrationTarget(c: ConfigCache, base: Option<ModelInfo>, presets: seq<CustomPreset>): (r: Hydration)
    ensures c.selectedPlugins.Some? && |c.selectedPlugins.value| > 0 ==>
              r.select.None? && (r.params.Some? <==> base.Some? && PresetNamed(base.value.parameterConfigs, PluginsPresetName).Some?)
    ensures c.selectedPlugins.Some? && |c.selectedPlugins.value| > 0 ==>
              r == Hydration(if base.Some? then PresetNamed(base.value.parameterConfigs, PluginsPresetName) else None, None)
    ensures !(c.selectedPlugins.Some? && |c.selectedPlugins.value| > 0) && c.selectedPresetName == UnknownCustomPresetName ==>
              r == Hydration(Some(c.customPresetConfig), Some(UnknownCustomPresetName))
    ensures !(c.selectedPlugins.Some? && |c.selectedPlugins.value| > 0) && c.selectedPresetName != UnknownCustomPresetName
            && StartsWithPrefix(c.selectedPresetName) ==>
              (r.params.Some? <==> exists k :: 0 <= k < |presets| && presets[k].name == c.selectedPresetName)
    ensures !(c.selectedPlugins.Some? && |c.selectedPlugins.value| > 0) && c.selectedPresetName != UnknownCustomPresetName
            && StartsWithPrefix(c.selectedPresetName) ==>
              r.params == CustomPresetNamed(presets, c.selectedPresetName)
    ensures !(c.selectedPlugins.Some? && |c.selectedPlugins.value| > 0) && c.selectedPresetName != UnknownCustomPresetName
            && !StartsWithPrefix(c.selectedPresetName) ==>
              r.params == (if base.Some? then PresetNamed(base.value.parameterConfigs, c.selectedPresetName) else None)
    ensures !(c.selectedPlugins.Some? && |c.selectedPlugins.value| > 0) ==>
              (r.params.Some? <==> r.select == Some(c.selectedPresetName))
    ensures r.params.None? ==> r.select.None?
  {
    if c.selectedPlugins.Some? && |c.selectedPlugins.value| > 0 then
      if base.None? then Hydration(None, None)
      else Hydration(PresetNamed(base.value.parameterConfigs, PluginsPresetName), None)
    else if c.selectedPresetName == UnknownCustomPresetName then
      Hydration(Some(c.customPresetConfig), Some(c.selectedPresetName))
    else if IsPrefix(CustomPresetNamePrefix, c.selectedPresetName) then
      match CustomPresetNamed(presets, c.selectedPresetName)
      case Some(config) => Hydration(Some(config), Some(c.selectedPresetName))
      case None => Hydration(None, None)
    else if base.None? then Hydration(None, None)
    else
      match PresetNamed(base.value.parameterConfigs, c.selectedPresetName)
      case Some(params) => Hydration(Some(params), Some(c.selectedPresetName))
      case None => Hydration(None, None)
  }

  /** `model || modelInfos[0]`. */
  function BaseModel(modelInfos: seq<ModelInfo>, c: ConfigCache): (r: Option<ModelInfo>)
    ensures r.None? <==> ModelNamed(modelInfos, c.modelConfigName).None? && |modelInfos| == 0
    ensures ModelNamed(modelInfos, c.modelConfigName).Some? ==> r == ModelNamed(modelInfos, c.modelConfigName)
    ensures ModelNamed(modelInfos, c.modelConfigName).None? && |modelInfos| > 0 ==> r == Some(modelInfos[0])
  {
    var model := ModelNamed(modelInfos, c.modelConfigName);
    if model.Some? then model else if |modelInfos| > 0 then Some(modelInfos[0]) else None
  }

  /**
    Hydration as written: the effect runs once, at mount, and looks custom
    presets up in the `customPresets` state of that render, which is the
    initial empty list rather than the presets it has just restored.
   */
  function HydrationTargetAsWritten(modelInfos: seq<ModelInfo>, c: ConfigCache): Hydration {
    HydrationTarget(c, BaseModel(modelInfos, c), [])
  }

  /** A cached selection of a custom preset is never restored, even when the cache holds that preset. */
  lemma HydrationAsWrittenDropsCustomPreset(modelInfos: seq<ModelInfo>, c: ConfigCache)
    requires c.selectedPlugins.None?
    requires c.selectedPresetName == "$$mine"
    requires c.customPresets == Some([CustomPreset("$$mine", map[])])
    ensures HydrationTargetAsWritten(modelInfos, c) == Hydration(None, None)
    ensures HydrationTargetCorrected(modelInfos, c, []) == Hydration(Some(map[]), Some("$$mine"))
  {
    assert IsPrefix(CustomPresetNamePrefix, c.selectedPresetName);
    assert c.customPresets.value[0].name == c.selectedPresetName;
  }

  /** The custom presets after hydration: the cached ones when the cache has them. */
  function HydratedPresets(c: ConfigCache, current: seq<CustomPreset>): seq<CustomPreset> {
    if c.customPresets.Some? then c.customPresets.value else current
  }

  /** Hydration with custom presets looked up among the presets it restores. */
  function HydrationTargetCorrected(modelInfos: seq<ModelInfo>, c: ConfigCache, current: seq<CustomPreset>): (r: Hydration)
    ensures !(c.selectedPlugins.Some? && |c.selectedPlugins.value| > 0) && c.selectedPresetName != UnknownCustomPresetName
            && StartsWithPrefix(c.selectedPresetName) && c.customPresets.Some? ==>
              (r.select == Some(c.selectedPresetName) <==>
               exists k :: 0 <= k < |c.customPresets.value| && c.customPresets.value[k].name == c.selectedPresetName)
  {
    HydrationTarget(c, BaseModel(modelInfos, c), HydratedPresets(c, current))
  }

  /** The form after the cache's model and selected plugins are written, before any parameters. */
  function CachedFields(form: FormValues, modelInfos: seq<ModelInfo>, c: ConfigCache): (r: FormValues)
    ensures forall f :: f !in {ModelConfigName, Plugins} ==> (f in r <==> f in form) && (f in form ==> r[f] == form[f])
    ensures ModelNamed(modelInfos, c.modelConfigName).Some? ==> ModelConfigName in r && r[ModelConfigName] == Text(c.modelConfigName)
    ensures ModelNamed(modelInfos, c.modelConfigName).None? ==>
              (ModelConfigName in r <==> ModelConfigName in form) && (ModelConfigName in form ==> r[ModelConfigName] == form[ModelConfigName])
    ensures c.selectedPlugins.Some? && |c.selectedPlugins.value| > 0 ==> Plugins in r && r[Plugins] == PluginList(c.selectedPlugins.value)
    ensures !(c.selectedPlugins.Some? && |c.selectedPlugins.value| > 0) ==>
              (Plugins in r <==> Plugins in form) && (Plugins in form ==> r[Plugins] == form[Plugins])
  {
    var withModel := if ModelNamed(modelInfos, c.modelConfigName).Some? then form[ModelConfigName := Text(c.modelConfigName)] else form;
    if c.selectedPlugins.Some? && |c.selectedPlugins.value| > 0 then withModel[Plugins := PluginList(c.selectedPlugins.value)] else withModel
  }

  /** Switching a parameter on gives it the slider maximum; switching it off makes it `Null`. */
  function SwitchValue(key: SamplingKey, checked: bool): (r: FormValue)
    ensures checked <==> r != Null
    ensures checked ==> r == Number(SliderMax(key)) && r.value > 0.0
  {
    if checked then Number(SliderMax(key)) else Null
  }

  /** The slider shows unless the value is `null`; a field the form lacks is `undefined`, which shows it. */
  function ShowSlider(form: FormValues, key: SamplingKey): (r: bool)
    ensures !r <==> Sampling(key) in form && form[Sampling(key)] == Null
  {
    !(Sampling(key) in form && form[Sampling(key)] == Null)
  }

  /** Flipping the switch on shows the slider, flipping it off hides it. */
  lemma SwitchShowsSlider(form: FormValues, key: SamplingKey, checked: bool)
    ensures ShowSlider(form[Sampling(key) := SwitchValue(key, checked)], key) == checked
  {
  }

  /** The plugins selected in the form (`getValues("plugins")`). */
  function SelectedPlugins(form: FormValues): seq<PluginEntry> {
    if Plugins in form && form[Plugins].PluginList? then form[Plugins].entries else []
  }

  /** The state of one mounted `ChatConfigForm` with its form context. */
  class ChatConfigForm {
    const modelInfos: seq<ModelInfo>
    const builtInPlugins: seq<PluginEntry>
    const parametersEqual: (FormValues, FormValues) -> bool
    var form: FormValues
    var selectedPresetName: String
    var lockPresetSelection: bool
    var customPresets: seq<CustomPreset>
    var plugins: seq<PluginEntry>
    var hydrated: bool

    /** The presets of the model selected in the form (`modelInfos.find(...)!.parameter_configs`). */
    function Presets(): Option<seq<ModelParameterConfig>>
      reads this
    {
      if ModelConfigName in form && form[ModelConfigName].Text? then
        match ModelNamed(modelInfos, form[ModelConfigName].text)
        case Some(m) => Some(m.parameterConfigs)
        case None => None
      else None
    }

    /** The first render: the preset name is derived from the initial form values. */
    constructor (modelInfos: seq<ModelInfo>, builtInPlugins: seq<PluginEntry>,
                 parametersEqual: (FormValues, FormValues) -> bool, initial: FormValues, presets: seq<ModelParameterConfig>)
      requires ModelConfigName in initial && initial[ModelConfigName].Text?
      requires ModelNamed(modelInfos, initial[ModelConfigName].text) == Some(ModelInfo(initial[ModelConfigName].text, presets))
      ensures this.modelInfos == modelInfos && this.builtInPlugins == builtInPlugins && this.parametersEqual == parametersEqual
      ensures form == initial && Presets() == Some(presets)
      ensures selectedPresetName == FindPresetName(presets, initial, parametersEqual)
      ensures !lockPresetSelection && customPresets == [] && plugins == builtInPlugins && !hydrated
    {
      this.modelInfos := modelInfos;
      this.builtInPlugins := builtInPlugins;
      this.parametersEqual := parametersEqual;
      form := initial;
      selectedPresetName := FindPresetName(presets, initial, parametersEqual);
      lockPresetSelection := false;
      customPresets := [];
      plugins := builtInPlugins;
      hydrated := false;
    }

    /** `resetParameters`: one `setValue` per entry; the other fields keep their values. */
    method ResetParameters(params: FormValues)
      modifies this`form
      ensures form == old(form) + params
    {
      var keys := params.Keys;
      while keys != {}
        invariant keys <= params.Keys
        invariant forall f :: f in form <==> f in old(form) || (f in params && f !in keys)
        invariant forall f :: f in form ==> form[f] == if f in params && f !in keys then params[f] else old(form)[f]
        decreases keys
      {
        var k :| k in keys;
        form := form[k := params[k]];
        keys := keys - {k};
      }
    }

    /**
      `handlePresetChange`: a named preset writes its parameters, then the
      name is selected. `ok` is false when the lookup behind `!` fails and
      the handler throws before changing anything. The lookup is the
      corrected `PresetConfig`, which also finds saved custom presets.
     */
    method HandlePresetChange(newPresetName: String) returns (ok: bool)
      modifies this`form, this`selectedPresetName
      ensures newPresetName == UnknownCustomPresetName ==> ok && form == old(form)
      ensures newPresetName != UnknownCustomPresetName ==>
                (ok <==> old(Presets()).Some? && PresetConfig(old(Presets()).value, customPresets, newPresetName).Some?)
      ensures newPresetName != UnknownCustomPresetName && ok ==>
                form == old(form) + PresetConfig(old(Presets()).value, customPresets, newPresetName).value
      ensures newPresetName != UnknownCustomPresetName && old(Presets()).Some?
              && PresetNamed(old(Presets()).value, newPresetName).None?
              && (exists k :: 0 <= k < |customPresets| && customPresets[k].name == newPresetName) ==>
                ok && form == old(form) + CustomPresetNamed(customPresets, newPresetName).value
      ensures ok ==> selectedPresetName == newPresetName
      ensures !ok ==> form == old(form) && selectedPresetName == old(selectedPresetName)
      ensures newPresetName == UnknownCustomPresetName ==> !ParametersDisabled(selectedPresetName)
      ensures ok && StartsWithPrefix(newPresetName) ==> !ParametersDisabled(selectedPresetName)
    {
      if newPresetName != UnknownCustomPresetName {
        var presets := Presets();
        if presets.None? {
          return false;
        }
        var config := PresetConfig(presets.value, customPresets, newPresetName);
        if config.None? {
          return false;
        }
        ResetParameters(config.value);
      }
      selectedPresetName := newPresetName;
      ok := true;
    }

    /** The plugin-lock effect: an enabled plugin forces `k50-Plugins` and locks the selection. */
    method ApplyPluginLock()
      modifies this`form, this`selectedPresetName, this`lockPresetSelection
      ensures var activated := Any(SelectedPlugins(old(form)), (p: PluginEntry) => p.enabled);
              && (!activated ==> !lockPresetSelection && form == old(form) && selectedPresetName == old(selectedPresetName))
              && (activated && old(Presets()).Some? && PresetConfig(old(Presets()).value, customPresets, PluginsPresetName).Some? ==>
                    lockPresetSelection && selectedPresetName == PluginsPresetName
                    && ParametersDisabled(selectedPresetName)
                    && form == old(form) + PresetConfig(old(Presets()).value, customPresets, PluginsPresetName).value)
              && (activated && old(Presets()).Some? && PresetNamed(old(Presets()).value, PluginsPresetName).Some? ==>
                    form == old(form) + PresetNamed(old(Presets()).value, PluginsPresetName).value)
              && (activated && !(old(Presets()).Some? && PresetConfig(old(Presets()).value, customPresets, PluginsPresetName).Some?) ==>
                    lockPresetSelection == old(lockPresetSelection) && form == old(form)
                    && selectedPresetName == old(selectedPresetName))
    {
      var activated := Any(SelectedPlugins(form), (p: PluginEntry) => p.enabled);
      if activated {
        var ok := HandlePresetChange(PluginsPresetName);
        if ok {
          lockPresetSelection := true;
          FieldsEditableFor([]);
        }
      } else {
        lockPresetSelection := false;
      }
    }

    /** `SavePresetButton.handleSave` followed by `handleSavePreset`, with the corrected duplicate check. */
    method SavePreset(input: Option<String>) returns (outcome: SaveOutcome)
      modifies this`customPresets, this`selectedPresetName
      ensures outcome == SaveDecision(old(customPresets), input, form)
      ensures outcome.Saved? ==> customPresets == old(customPresets) + [outcome.preset]
                                 && selectedPresetName == outcome.preset.name
                                 && !ParametersDisabled(selectedPresetName) && !SaveButtonShown(selectedPresetName)
      ensures !outcome.Saved? ==> customPresets == old(customPresets) && selectedPresetName == old(selectedPresetName)
      ensures DistinctNames(old(customPresets)) ==> DistinctNames(customPresets)
    {
      outcome := SaveDecision(customPresets, input, form);
      if outcome.Saved? {
        if DistinctNames(customPresets) {
          SaveKeepsNamesDistinct(customPresets, input, form);
        }
        customPresets := customPresets + [outcome.preset];
        selectedPresetName := outcome.preset.name;
        FieldsEditableFor(TrimmedName(input).value);
      }
    }

    /** `ChatParameterField`'s switch handler for one parameter. */
    method ToggleParameter(key: SamplingKey, checked: bool)
      modifies this`form
      ensures form == old(form)[Sampling(key) := SwitchValue(key, checked)]
      ensures ShowSlider(form, key) == checked
    {
      form := form[Sampling(key) := if checked then Number(SliderMax(key)) else Null];
    }

    /**
      The hydration effect, run with what `getConfigCache` returned. It acts
      once; later runs change nothing. Custom presets are looked up among the
      presets being restored.
     */
    method Hydrate(cache: Option<ConfigCache>)
      modifies this`form, this`selectedPresetName, this`customPresets, this`plugins, this`hydrated
      ensures old(hydrated) ==> hydrated && form == old(form) && selectedPresetName == old(selectedPresetName)
                                && customPresets == old(customPresets) && plugins == old(plugins)
      ensures !old(hydrated) ==> hydrated
      ensures !old(hydrated) && cache.None? ==>
                && form == old(form) && selectedPresetName == old(selectedPresetName)
                && customPresets == old(customPresets) && plugins == old(plugins)
      ensures !old(hydrated) && cache.Some? ==>
                var c := cache.value;
                var t := HydrationTargetCorrected(modelInfos, c, old(customPresets));
                && customPresets == HydratedPresets(c, old(customPresets))
                && plugins == (if c.plugins.Some? then HydratedPlugins(builtInPlugins, c.plugins.value) else old(plugins))
                && form == CachedFields(old(form), modelInfos, c) + (if t.params.Some? then t.params.value else map[])
                && selectedPresetName == (if t.select.Some? then t.select.value else old(selectedPresetName))
    {
      if hydrated {
        return;
      }
      hydrated := true;
      if cache.None? {
        return;
      }
      var c := cache.value;
      RestoreCache(c);
      var target := HydrationTarget(c, BaseModel(modelInfos, c), customPresets);
      ApplyHydration(target);
    }

    /** The first half of hydration: the cached model, selected plugins, plugin list and custom presets. */
    method RestoreCache(c: ConfigCache)
      modifies this`form, this`customPresets, this`plugins
      ensures form == CachedFields(old(form), modelInfos, c)
      ensures customPresets == HydratedPresets(c, old(customPresets))
      ensures plugins == (if c.plugins.Some? then HydratedPlugins(builtInPlugins, c.plugins.value) else old(plugins))
    {
      var model := ModelNamed(modelInfos, c.modelConfigName);
      if model.Some? {
        form := form[ModelConfigName := Text(c.modelConfigName)];
      }
      if c.plugins.Some? {
        plugins := HydratedPlugins(builtInPlugins, c.plugins.value);
      }
      if c.customPresets.Some? {
        customPresets := c.customPresets.value;
      }
      if c.selectedPlugins.Some? && |c.selectedPlugins.value| > 0 {
        form := form[Plugins := PluginList(c.selectedPlugins.value)];
      }
    }

    /** The second half of hydration: the parameters chosen by the precedence cascade, and the name it selects. */
    method ApplyHydration(target: Hydration)
      modifies this`form, this`selectedPresetName
      ensures form == old(form) + (if target.params.Some? then target.params.value else map[])
      ensures selectedPresetName == (if target.select.Some? then target.select.value else old(selectedPresetName))
    {
      if target.params.Some? {
        ResetParameters(target.params.value);
      }
      if target.select.Some? {
        selectedPresetName := target.select.value;
      }
    }
  }
}
