/** The level catalogue: five hand-authored tile grids and, for each, the
    table of bee triggers (a world x the player must reach, and the height
    at which the bee appears). Grid symbols: '0' empty, '1' grass, '2' dirt,
    '3' alternative solid, 'T' toast, 'C' cookie, 'H' chocolate, 'W' water. */
module Levels {

  /** One row of a bee-trigger table. */
  datatype Trigger = Trigger(x: int, spawnY: int)

  predicate IsLevel(n: int) { 1 <= n <= 5 }

  const LEVEL_1: seq<string> := [
    "0000000000000000000000000000000000000000000000000000000000000000000000000000000000000000",
    "0000000000000000000000000000000000000000000000000000000000000000000000000000000000000000",
    "0000000000000000000000000000000000H00000000000000000000000000000000000000000000000000000",
    "000000000000000000000000000C000011100000000000000000000000000000000000000000000000000000",
    "000000000000000000000000011110000000000000000000000000C0000000000000000000000T0000000000",
    "0000000000000000000T00T00000000000000000000000000T00000000000000000000000000000000000000",
    "00000000T000T00000111110000000000000000C00T00000111000000000C000T000T000T000000000000000",
    "111111100111111111222221111111111111111111111111222111111111111111111111111111111111WWWW",
    "2222222112222222222222222222222222222222222222222222222222222222222222222222222222222222",
    "2222222222222222222222222222222222222222222222222222222222222222222222222222222222222222"
  ]

  const LEVEL_2: seq<string> := [
    "000000000000000000000000000000000000000000000000000000000000000000000000000000000000000000000000000",
    "000000000000000000000000000000000000000000000000000000000000000000000000000000000000000000000000000",
    "0000000000000000000000000000000000H0000000000000000000000000000000000000000000H00000000000000000000",
    "0000000000000000000000C0001111000000000000000C00000000000000000000000000000000100000000000000000000",
    "000000000000T00000011100000000000000110000000000000000T000000000000000000000C0000000000000000000000",
    "0000000000000000000000000T000000000000000T0000000000000000000000000000000000110000000T0000000000000",
    "000T0000C000000111110000000000000000C00000000011100000C0000000T0000000000000000000000000000T0000000",
    "111111111111111222221111111111111111111111111122211111111111111111111000111111111111111111111111WWW",
    "222222222222222222222222222222222222222222222222222222222222222222222000222222222222222222222222222",
    "222222222222222222222222222222222222222222222222222222222222222222222222222222222222222222222222222"
  ]

  const LEVEL_3: seq<string> := [
    "000000000000000000000000000000000000000000000000000000000000000000000000000000000000000000000000000000000000000000000",
    "000000000000C0000000H000000000000000000000000000000000000000000000000000000000000000000000000000000000000000000000000",
    "00000000000000010000T000000000000000000000000000000000000000000000000000000000000000000000000000000000000000000000000",
    "00000000000100000000T00000000000000000000000000000000000000000000000000C000000000000000000000000000000000000000000000",
    "000000000C0000000000T000000000000000000TTT000000000000000000000000000001000000000000000000000000000000000000000000000",
    "00000000110000000000T0000000000000000000000000000000000000000000000000T0000000000T000T0000000000000000000000000000000",
    "0000000000000000000000000000000000T00000000000001111000000000000000000100000000000000000000000000T00T00T00T00T00T0000",
    "111111111111111111111111111111111111111111111111222211000111111111111021111111111111111100111111111111111111111111WWW",
    "22222222222222222222222222222222222222222222222222222200T0T0C0T0T0C00T22222222222222222200222222222222222222222222222",
    "222222222222222222222222222222222222222222222222222222222222222222222222222222222222222200222222222222222222222222222"
  ]

  const LEVEL_4: seq<string> := [
    "00000000000000000000000000000000000000000000000000000000000000000000000000000000000000000000000000000000000000000000000000000000000000000000000000",
    "00000000000000000000000000000000000000000000000000000000000000000000000000000000000000000000000000000000000000000000000000000000000000000000000000",
    "000000000000000000000000000000000C0000000000000H00000000000000000000000000000000000000000000000000000000000000000000000000000000000000000000000000",
    "00000000000000000000000000000C0C111000000000000C000000000000000000000000000000000000000000000000C00000000H0000000000000000000000000000000000000000",
    "00000000000000000000000000TT1111200000000000000T0000000000000000C000000000000000000000000000000000000000110000000000000000000000000000000000000000",
    "000000000000000000000CT011112000000000000000000T00000000000000000000000T0000000000T00000000000T0000000000000000C0000000000000000000000000000000000",
    "0000000000000000T000111120000000000000000000000T00000000000T0000000000000000T000000000T000000000000000000000000000000000000T000000000000T0000T0000",
    "H1111111111110111111222221111111111111111111111C11111111111111111111111111111111111111111111111111111111111111111111111001111110111110111111111WWW",
    "22222222222C00222222222222222222222222222222222C00C00T00T00C00T00H22222222222222222222222222222222222222222222222222222222222220222220222222222222",
    "22222222222222222222222222222222222222222222222222222222222222222222222222222222222222222222222222222222222222222222222222222220222220222222222222"
  ]

  const LEVEL_5: seq<string> := [
    "000000000000000000000000000000000000000000000000000000000000000000000000000000000000000000000000000000000000000000000000000000000000000000000000000000000000000",
    "000000000000000000000000000000000000000000000000000000000000000000000000000000000000000000000000000000000000000000000000000000000000000000000000000000000000000",
    "000000000000000000000000000000H00000000000000000000000000000000000000000000000000000000000000HC000000000000000000000000000000000000000000000000H000000000000000",
    "00000000000000000000000000C0001000000000000000000000000000000000000000000000000000000TT0000001100000000000000000000000000000000000000000000C0001000000000000000",
    "0000000000000000000000C000100000000000000000C00000C000T000C0000000T0000H000000T0000001100000000000000T00000000000000C000000000000000000C00010000000000T00000000",
    "00000000000000000000001000000000000000000T000000000000000000000000000000000000000010000000000000000000000000C00000000000000000000000T01000000000000T0000000000",
    "00000000T000T00T00T000000000000000000T000000000000000000000000000000000000000000000000000000000000000000000000000000000000H00000000000000000000000000000000000",
    "101111111111111111111111111111111000011111111111111111111111111111111111111111111111111111111111111111111111111111111111111100001111111111111111111111111111WWW",
    "222222222222222222222222222222222000022222222222222222222222222222222222222222222222222222222222222222222222222222222222222200002222222222222222222222222222222",
    "222222222222222222222222222222222000022222222222222222222222222222222222222222222222222222222222222222222222222222222222222200002222222222222222222222222222222"
  ]

  const TRIGGERS_1: seq<Trigger> := [
    Trigger(600, 300), Trigger(1200, 350), Trigger(1800, 300), Trigger(2400, 320), Trigger(3000, 280)
  ]

  const TRIGGERS_2: seq<Trigger> := [
    Trigger(500, 250), Trigger(800, 300), Trigger(1200, 270), Trigger(1500, 260), Trigger(2000, 300), Trigger(2500, 250),
    Trigger(3000, 230), Trigger(3999, 244), Trigger(4500, 230)
  ]

  const TRIGGERS_3: seq<Trigger> := [
    Trigger(800, 240), Trigger(900, 230), Trigger(900, 265), Trigger(1200, 250), Trigger(1600, 270), Trigger(1700, 235),
    Trigger(2000, 260), Trigger(2200, 300), Trigger(3000, 254), Trigger(3555, 239), Trigger(4000, 280)
  ]

  const TRIGGERS_4: seq<Trigger> := [
    Trigger(300, 250), Trigger(400, 210), Trigger(500, 240), Trigger(600, 230), Trigger(700, 300), Trigger(800, 240),
    Trigger(1000, 230), Trigger(1200, 244), Trigger(1400, 225), Trigger(1700, 221), Trigger(2000, 234), Trigger(2003, 239),
    Trigger(2006, 280), Trigger(2400, 200), Trigger(2800, 230), Trigger(3000, 260), Trigger(3200, 244), Trigger(3300, 230),
    Trigger(3600, 250), Trigger(3800, 254), Trigger(4000, 239), Trigger(4200, 280), Trigger(4400, 300)
  ]

  const TRIGGERS_5: seq<Trigger> := [
    Trigger(280, 220), Trigger(300, 210), Trigger(370, 220), Trigger(375, 230), Trigger(380, 190), Trigger(370, 230),
    Trigger(400, 170), Trigger(430, 180), Trigger(430, 220), Trigger(500, 240), Trigger(500, 230), Trigger(500, 240),
    Trigger(500, 170), Trigger(560, 190), Trigger(600, 180), Trigger(680, 201), Trigger(700, 206), Trigger(800, 210)
  ] + [
    Trigger(900, 190), Trigger(1000, 160), Trigger(1100, 200), Trigger(1200, 204), Trigger(1300, 207), Trigger(1400, 190),
    Trigger(1500, 210), Trigger(1600, 220), Trigger(1700, 205), Trigger(1800, 200), Trigger(1900, 210), Trigger(2000, 230),
    Trigger(2100, 290), Trigger(2200, 220), Trigger(2300, 260), Trigger(2400, 230), Trigger(2500, 250), Trigger(2600, 250),
    Trigger(2700, 230), Trigger(2800, 240), Trigger(2900, 250), Trigger(3000, 220), Trigger(3100, 224), Trigger(3200, 240),
    Trigger(3300, 201), Trigger(3400, 190), Trigger(3500, 210), Trigger(3600, 212), Trigger(3700, 170), Trigger(3800, 220),
    Trigger(3900, 222), Trigger(4000, 240), Trigger(4100, 202), Trigger(4200, 200), Trigger(4300, 220), Trigger(4400, 214),
    Trigger(4500, 181), Trigger(4600, 220), Trigger(4700, 225), Trigger(4800, 240), Trigger(4900, 203), Trigger(5000, 210),
    Trigger(5100, 170), Trigger(5200, 215), Trigger(5300, 193), Trigger(5400, 220), Trigger(5500, 227), Trigger(5600, 240),
    Trigger(5700, 204), Trigger(5800, 190), Trigger(5900, 223), Trigger(6000, 216), Trigger(6100, 185), Trigger(6200, 220),
    Trigger(6300, 229), Trigger(6400, 240), Trigger(6500, 190), Trigger(6600, 204), Trigger(6700, 215), Trigger(6800, 218),
    Trigger(6900, 200), Trigger(7000, 220), Trigger(7100, 222), Trigger(7200, 240), Trigger(7300, 205), Trigger(7400, 206),
    Trigger(7500, 219), Trigger(7600, 219), Trigger(7700, 190), Trigger(7800, 220), Trigger(7900, 221), Trigger(8000, 240),
    Trigger(8100, 206), Trigger(8200, 190), Trigger(8300, 215), Trigger(8400, 221), Trigger(8500, 210), Trigger(8600, 220),
    Trigger(8700, 223), Trigger(8800, 240), Trigger(8900, 207), Trigger(9000, 230)
  ]

  /** A level: its grid and its bee-trigger table. */
  datatype Level = Level(tilemap: seq<string>, triggers: seq<Trigger>)

  /** The game's level table; level n is entry n - 1. */
  function Catalogue(): seq<Level>
  {
    [Level(LEVEL_1, TRIGGERS_1), Level(LEVEL_2, TRIGGERS_2), Level(LEVEL_3, TRIGGERS_3),
     Level(LEVEL_4, TRIGGERS_4), Level(LEVEL_5, TRIGGERS_5)]
  }

  /** Five levels, each with at least one row. */
  predicate WellFormedCatalogue(levels: seq<Level>)
  {
    |levels| == 5 && forall i :: 0 <= i < |levels| ==> |levels[i].tilemap| > 0
  }

  /** The game's own table is well formed: five levels, none of them an
      empty grid. */
  lemma CatalogueWellFormed()
    ensures WellFormedCatalogue(Catalogue())
  {
  }
}
