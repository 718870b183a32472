/**
  The output sizes the renderers accept, selected by name on the command
  line.
*/
module Resolutions {

  /** A pixel count: every dimension in the table is positive. */
  type Pixels = n: int | 0 < n witness 1

  /** A rect_t: a named width by height in pixels. */
  datatype Resolution = Resolution(name: string, width: Pixels, height: Pixels)

  /** The RESOLUTION_COUNT = 23 entries of the table, in table order. */
  const All: seq<Resolution> := [
    Resolution("480p", 640, 480),
    Resolution("720p", 1280, 720),
    Resolution("768p", 1024, 768),
    Resolution("900p", 1600, 900),
    Resolution("1080p", 1920, 1080),
    Resolution("1440p", 2560, 1440),
    Resolution("4k", 3840, 2160),
    Resolution("8k", 7680, 4320),
    Resolution("16k", 15360, 8640),
    Resolution("32k", 30720, 17280),
    Resolution("64k", 61440, 34560),
    Resolution("iphoneSE", 1136, 640),
    Resolution("iphone5", 1136, 640),
    Resolution("iphone7", 1134, 750),
    Resolution("iphone7+", 2208, 1242),
    Resolution("ipadMini", 2048, 1536),
    Resolution("ipadAir", 2048, 1536),
    Resolution("ipadPro10", 2224, 1668),
    Resolution("ipadPro12", 2732, 2048),
    Resolution("iwatch1", 340, 272),
    Resolution("iwatch2", 390, 312),
    Resolution("twitter", 1024, 576),
    Resolution("instagram", 1024, 768)
  ]

  /** The entry names, in table order. */
  function Names(): seq<string>
  {
    seq(|All|, i requires 0 <= i < |All| => All[i].name)
  }

  /** The table has 23 landscape entries: every width exceeds its height,
      as the renderers' aspect computation assumes. */
  lemma TableIsLandscape()
    ensures |All| == 23
    ensures forall i :: 0 <= i < |All| ==> All[i].height < All[i].width
  {
  }
}
