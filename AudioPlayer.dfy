/** The tone-settings store of the audio player component: the active tone
    settings, the name of the last preset chosen, the user's custom preset and
    the browser storage that keeps it between sessions, together with the three
    equalizer nodes the settings are pushed onto.  React state updates become
    assignments to the fields of one `Player` object. */
module AudioPlayer {

  /** The three tone parameters: a linear gain and two shelf gains in dB. */
  datatype Settings = Settings(gain: real, bass: real, treble: real)

  const FlatSettings := Settings(1.0, 0.0, 0.0)
  const BassBoostSettings := Settings(1.1, 8.0, -2.0)
  const VolumeExtenderSettings := Settings(1.4, 3.0, 2.0)

  /** The storage key the custom preset is saved under. */
  const CustomPresetKey := "mcm_custom_preset"

  /** The preset names with a fixed triple of their own. */
  const FixedPresets: map<string, Settings> :=
    map["Bass Boost" := BassBoostSettings, "Volume Extender" := VolumeExtenderSettings]

  /** The settings a preset name stands for: a fixed triple, the current custom
      preset for "Custom", and the flat triple for "Flat" and for every name it
      does not know. */
  function ResolvePreset(name: string, custom: Settings): (r: Settings)
    ensures name in FixedPresets ==> r == FixedPresets[name]
    ensures name == "Custom" ==> r == custom
    ensures name !in FixedPresets && name != "Custom" ==> r == FlatSettings
  {
    if name == "Bass Boost" then BassBoostSettings
    else if name == "Volume Extender" then VolumeExtenderSettings
    else if name == "Custom" then custom
    else FlatSettings
  }

  /** The custom preset a session starts with: the saved one if there is one,
      the flat triple otherwise. */
  function LoadCustomPreset(storage: map<string, Settings>): (r: Settings)
    ensures CustomPresetKey in storage ==> r == storage[CustomPresetKey]
    ensures CustomPresetKey !in storage ==> r == FlatSettings
  {
    if CustomPresetKey in storage then storage[CustomPresetKey] else FlatSettings
  }

  /** Resolving a name against the very settings it resolved to changes
      nothing: what makes saving the current settings as the custom preset
      harmless to the active preset. */
  lemma ResolveAgainstOwnResult(name: string, custom: Settings)
    ensures ResolvePreset(name, ResolvePreset(name, custom)) == ResolvePreset(name, custom)
  {
  }

  /** A session started over the storage a save left behind begins with the
      saved triple as its custom preset. */
  lemma SavedPresetSurvivesReload(storage: map<string, Settings>, saved: Settings)
    ensures LoadCustomPreset(storage[CustomPresetKey := saved]) == saved
  {
  }

  /** What an audio node does: the two shelf filters with their corner
      frequencies in Hz, and the gain stage. */
  datatype NodeKind = LowShelf(frequency: int) | HighShelf(frequency: int) | GainStage

  /** The stages of the signal chain, in the order they are connected. */
  datatype Stage = MediaSource | BassShelf | TrebleShelf | Gain | Analyser | Output

  const SignalChain: seq<Stage> := [MediaSource, BassShelf, TrebleShelf, Gain, Analyser, Output]

  /** A node of the audio graph, reduced to what the settings touch: the
      value of its `gain` parameter. */
  class AudioNode {
    const kind: NodeKind
    var gain: real

    constructor (kind: NodeKind, gain: real)
      ensures this.kind == kind && this.gain == gain
    {
      this.kind := kind;
      this.gain := gain;
    }
  }

  class Player {
    var hasAudioContext: bool
    var gainNode: AudioNode?
    var bassNode: AudioNode?
    var trebleNode: AudioNode?
    var isPlaying: bool
    var preset: string
    var customPreset: Settings
    var settings: Settings
    /** The browser's local storage, holding settings records directly. */
    var storage: map<string, Settings>
    /** The stages connected so far, source first. */
    ghost var chain: seq<Stage>

    predicate NodesReady()
      reads this
    {
      gainNode != null && bassNode != null && trebleNode != null
    }

    /** The object invariant.  The active settings are always what the active
        preset name resolves to; the stored custom preset, when there is one,
        is the one in use; the graph is either not built at all or built in
        full, with three distinct nodes of the right kinds. */
    ghost predicate Valid()
      reads this
    {
      settings == ResolvePreset(preset, customPreset) &&
      (CustomPresetKey in storage ==> storage[CustomPresetKey] == customPreset) &&
      (gainNode == null <==> bassNode == null) && (bassNode == null <==> trebleNode == null) &&
      (hasAudioContext <==> NodesReady()) &&
      (NodesReady() ==>
         gainNode != bassNode && gainNode != trebleNode && bassNode != trebleNode &&
         gainNode.kind == GainStage && bassNode.kind == LowShelf(200) && trebleNode.kind == HighShelf(3000) &&
         chain == SignalChain) &&
      (!NodesReady() ==> chain == [])
    }

    /** The values the three nodes currently hold, as a settings record. */
    ghost function NodeGains(): Settings
      reads this, gainNode, bassNode, trebleNode
      requires NodesReady()
    {
      Settings(gainNode.gain, bassNode.gain, trebleNode.gain)
    }

    /** The component as first rendered, over what storage holds. */
    constructor (stored: map<string, Settings>)
      ensures Valid()
      ensures preset == "Flat" && settings == FlatSettings && !isPlaying
      ensures customPreset == LoadCustomPreset(stored) && storage == stored
      ensures !hasAudioContext && gainNode == null && bassNode == null && trebleNode == null
    {
      hasAudioContext := false;
      gainNode, bassNode, trebleNode := null, null, null;
      isPlaying := false;
      preset := "Flat";
      customPreset := LoadCustomPreset(stored);
      settings := Settings(1.0, 0.0, 0.0);
      storage := stored;
      chain := [];
    }

    /** The mount effect: a fresh context and three fresh nodes, the shelves
        at 200 Hz and 3000 Hz, connected source, bass, treble, gain, analyser,
        output.  New nodes hold the Web Audio defaults (gain 1, shelf gain 0)
        until the settings are pushed. */
    method ConnectGraph()
      requires Valid() && !hasAudioContext
      modifies this`hasAudioContext, this`gainNode, this`bassNode, this`trebleNode, this`chain
      ensures Valid() && hasAudioContext && NodesReady()
      ensures fresh(gainNode) && fresh(bassNode) && fresh(trebleNode)
      ensures NodeGains() == Settings(1.0, 0.0, 0.0)
      ensures chain == SignalChain
    {
      var gain := new AudioNode(GainStage, 1.0);
      var bass := new AudioNode(LowShelf(200), 0.0);
      var treble := new AudioNode(HighShelf(3000), 0.0);
      chain := [MediaSource, BassShelf, TrebleShelf, Gain, Analyser, Output];
      hasAudioContext := true;
      gainNode, bassNode, trebleNode := gain, bass, treble;
    }

    /** `applyPreset`: the settings become what the name resolves to and the
        name is recorded as given; nothing else changes. */
    method ApplyPreset(name: string)
      requires Valid()
      modifies this`settings, this`preset
      ensures Valid()
      ensures settings == ResolvePreset(name, customPreset) && preset == name
    {
      var s := FlatSettings;
      if name == "Bass Boost" {
        s := BassBoostSettings;
      } else if name == "Volume Extender" {
        s := VolumeExtenderSettings;
      } else if name == "Custom" {
        s := customPreset;
      }
      settings := s;
      preset := name;
    }

    /** `saveCustomPreset`: the current settings become the custom preset,
        in the component and in storage; the settings and the preset name
        stay as they are. */
    method SaveCustomPreset()
      requires Valid()
      modifies this`customPreset, this`storage
      ensures Valid()
      ensures customPreset == settings
      ensures storage == old(storage)[CustomPresetKey := settings]
    {
      ResolveAgainstOwnResult(preset, customPreset);
      storage := storage[CustomPresetKey := settings];
      customPreset := settings;
    }

    /** The settings effect: when all three nodes exist, each takes the
        matching field of the settings, unclamped; otherwise nothing happens.
        The second clause, idempotence, follows from the first. */
    method PushSettings()
      requires Valid()
      modifies gainNode, bassNode, trebleNode
      ensures Valid()
      ensures NodesReady() ==> NodeGains() == settings
      ensures NodesReady() && old(NodeGains()) == settings ==> NodeGains() == old(NodeGains())
    {
      if gainNode != null && bassNode != null && trebleNode != null {
        gainNode.gain := settings.gain;
        bassNode.gain := settings.bass;
        trebleNode.gain := settings.treble;
      }
    }

    /** The guard at the head of `togglePlay`: without an audio context the
        toggle does nothing. */
    method TogglePlayGuard() returns (proceeds: bool)
      requires Valid()
      ensures proceeds <==> hasAudioContext
      ensures proceeds ==> NodesReady()
    {
      proceeds := hasAudioContext;
    }
  }

  /** A preset choice followed by the effect it triggers: once the graph is
      built, the nodes hold exactly what the name resolves to. */
  method SelectPreset(p: Player, name: string)
    requires p.Valid()
    modifies p`settings, p`preset, p.gainNode, p.bassNode, p.trebleNode
    ensures p.Valid() && p.preset == name
    ensures p.NodesReady() ==> p.NodeGains() == ResolvePreset(name, p.customPreset)
  {
    p.ApplyPreset(name);
    p.PushSettings();
  }

  /** Saving and then choosing "Custom" gives back the saved settings. */
  method SaveThenSelectCustom(p: Player)
    requires p.Valid()
    modifies p`settings, p`preset, p`customPreset, p`storage
    ensures p.Valid()
    ensures p.settings == old(p.settings) && p.customPreset == old(p.settings) && p.preset == "Custom"
    ensures p.storage == old(p.storage)[CustomPresetKey := old(p.settings)]
  {
    p.SaveCustomPreset();
    p.ApplyPreset("Custom");
  }

  /** In a session with nothing stored, "Custom" before any save is flat. */
  method FreshSessionCustomIsFlat() returns (p: Player)
    ensures p.Valid() && p.preset == "Custom" && p.settings == FlatSettings
  {
    p := new Player(map[]);
    p.ApplyPreset("Custom");
  }
}
