/** WGPlayerItem.swift: the resource a player is given and its definitions (quality variants). */
module Items {
  import opened Wrappers
  import opened Engine

  /** `WGPlayerAspectRatio`, an `Int` raw-value enum. */
  datatype AspectRatio = Default | SixteenToNine | FourToThree
  {
    function RawValue(): int
    {
      match this
      case Default => 0
      case SixteenToNine => 1
      case FourToThree => 2
    }
  }

  function AspectRatioFromRaw(raw: int): (a: Option<AspectRatio>)
    ensures a.Some? ==> a.value.RawValue() == raw
    ensures a.None? <==> raw !in {0, 1, 2}
  {
    match raw
    case 0 => Some(Default)
    case 1 => Some(SixteenToNine)
    case 2 => Some(FourToThree)
    case _ => None
  }

  /** `WGSubtitles(url:)`; the subtitle parser lives outside this model. */
  datatype Subtitles = Subtitles(url: Url)

  /** `WGPlayerResourceDefinition`; option values of type `Any` are modelled as strings. */
  datatype ResourceDefinition = ResourceDefinition(url: Url, definition: string, options: Option<map<string, string>>)

  /** `WGPlayerResourceDefinition.init(url:definition:options:)`. */
  function NewDefinition(url: Url, definition: string, options: Option<map<string, string>> := None): (d: ResourceDefinition)
    ensures d.url == url && d.definition == definition && d.options == options
  {
    ResourceDefinition(url, definition, options)
  }

  /** `WGPlayerResource`. */
  datatype Resource = Resource(
    name: string,
    cover: Option<Url>,
    subtitle: Option<Subtitles>,
    definitions: seq<ResourceDefinition>,
    option: PlayerOption,
    isLive: bool,
    aspestRatio: AspectRatio)

  /** The designated `WGPlayerResource.init(option:isLive:aspestRatio:name:definitions:cover:subtitles:)`. */
  function NewResource(option: PlayerOption, isLive: bool, aspestRatio: AspectRatio, name: string := "",
                       definitions: seq<ResourceDefinition>, cover: Option<Url> := None,
                       subtitles: Option<Subtitles> := None): (r: Resource)
    ensures r.name == name && r.cover == cover && r.subtitle == subtitles && r.definitions == definitions
    ensures r.option == option && r.isLive == isLive && r.aspestRatio == aspestRatio
  {
    Resource(name, cover, subtitles, definitions, option, isLive, aspestRatio)
  }

  /** The convenience `WGPlayerResource.init(url:option:isLive:aspestRatio:name:cover:subtitle:)`, for a single definition. */
  function ResourceFromUrl(url: Url, option: PlayerOption := DefaultOption, isLive: bool := false,
                           aspestRatio: AspectRatio := SixteenToNine, name: string := "",
                           cover: Option<Url> := None, subtitle: Option<Url> := None): (r: Resource)
    ensures |r.definitions| == 1 && r.definitions[0].url == url && r.definitions[0].definition == ""
    ensures r.definitions[0].options == None
    ensures r.subtitle.None? <==> subtitle.None?
    ensures subtitle.Some? ==> r.subtitle == Some(Subtitles(subtitle.value))
    ensures r.option == option && r.isLive == isLive && r.aspestRatio == aspestRatio
    ensures r.name == name && r.cover == cover
  {
    var definition := NewDefinition(url, "");
    var subtitles := if subtitle.Some? then Some(Subtitles(subtitle.value)) else None;
    NewResource(option, isLive, aspestRatio, name, [definition], cover, subtitles)
  }

  /** With every optional argument left out, the convenience initialiser's defaults apply. */
  lemma ResourceFromUrlDefaults(url: Url)
    ensures var r := ResourceFromUrl(url);
      !r.isLive && r.aspestRatio == SixteenToNine && r.name == "" && r.cover == None
      && r.subtitle == None && r.option == DefaultOption
  {
  }
}
