/**
 * The M22759 hookup-wire generator (generate_m22759.py): a constant table
 * of MIL-W-22759 slash sheets, one cable record per (slash, wire) entry,
 * and the append of the generated records to a cable library.
 */
module Generator {
  import opened Text
  import opened Wrappers
  import opened Records

  /** One spec tuple: (gauge, strands, strand gauge, conductor dia, insulation min, insulation max, resistance). */
  datatype WireSpec = WireSpec(
    gauge: string,
    strands: nat,
    strandGauge: nat,
    conductorDia: real,
    insulationMin: real,
    insulationMax: real,
    resistance: real)

  /** The data of one slash sheet: conductor and insulation materials, rating, and wires. */
  datatype SlashSpec = SlashSpec(
    conductor: string,
    insulation: string,
    temp: int,
    voltage: int,
    specs: seq<WireSpec>)

  /** One item of `m22759_specs`: a slash number (the dict key) and its sheet. */
  datatype Sheet = Sheet(slash: string, spec: SlashSpec)

  // ---------------------------------------------------------------------------
  // The constant table m22759_specs
  // ---------------------------------------------------------------------------

  /** M22759/5 (generate_m22759.py:9-25). */
  function Slash5(): SlashSpec {
    SlashSpec("Silver Plated Copper", "Mineral-filled PTFE", 200, 600, [
      WireSpec("8", 133, 29, 4.11, 6.12, 6.48, 0.658),
      WireSpec("10", 37, 26, 2.74, 4.37, 4.73, 1.19),
      WireSpec("12", 19, 25, 2.18, 3.89, 4.24, 1.81),
      WireSpec("14", 19, 27, 1.70, 3.45, 3.81, 2.88),
      WireSpec("16", 19, 29, 1.35, 3.05, 3.30, 4.52),
      WireSpec("18", 19, 30, 1.19, 2.67, 2.92, 5.79),
      WireSpec("20", 19, 32, 0.97, 2.29, 2.54, 9.19),
      WireSpec("22", 19, 34, 0.76, 2.03, 2.29, 15.1),
      WireSpec("24", 19, 36, 0.61, 1.78, 2.03, 24.3)
    ])
  }

  /** M22759/6 (generate_m22759.py:27-43). */
  function Slash6(): SlashSpec {
    SlashSpec("Nickel Plated Copper", "Mineral-filled PTFE", 260, 600, [
      WireSpec("8", 133, 29, 4.14, 6.12, 6.48, 0.694),
      WireSpec("10", 37, 26, 2.77, 4.37, 4.73, 1.24),
      WireSpec("12", 19, 25, 2.18, 3.89, 4.24, 1.89),
      WireSpec("14", 19, 27, 1.70, 3.45, 3.81, 3.00),
      WireSpec("16", 19, 29, 1.35, 3.05, 3.30, 4.76),
      WireSpec("18", 19, 30, 1.19, 2.67, 2.92, 6.10),
      WireSpec("20", 19, 32, 0.97, 2.29, 2.54, 9.77),
      WireSpec("22", 19, 34, 0.76, 2.03, 2.29, 16.0),
      WireSpec("24", 19, 36, 0.61, 1.78, 2.03, 25.9)
    ])
  }

  /** M22759/7 (generate_m22759.py:45-61). */
  function Slash7(): SlashSpec {
    SlashSpec("Silver Plated Copper", "Mineral-filled PTFE (light weight)", 200, 600, [
      WireSpec("8", 133, 29, 4.11, 5.46, 5.72, 0.658),
      WireSpec("10", 37, 26, 2.74, 3.91, 4.11, 1.19),
      WireSpec("12", 19, 25, 2.18, 3.33, 3.48, 1.81),
      WireSpec("14", 19, 27, 1.70, 2.84, 3.00, 2.88),
      WireSpec("16", 19, 29, 1.35, 2.51, 2.67, 4.52),
      WireSpec("18", 19, 30, 1.19, 2.29, 2.39, 5.79),
      WireSpec("20", 19, 32, 0.97, 2.03, 2.13, 9.19),
      WireSpec("22", 19, 34, 0.76, 1.80, 1.91, 15.1),
      WireSpec("24", 19, 36, 0.61, 1.52, 1.63, 24.3)
    ])
  }

  /** M22759/8 (generate_m22759.py:63-79). */
  function Slash8(): SlashSpec {
    SlashSpec("Nickel Plated Copper", "Mineral-filled PTFE (light weight)", 260, 600, [
      WireSpec("8", 133, 29, 4.14, 5.46, 5.72, 0.694),
      WireSpec("10", 37, 26, 2.77, 3.91, 4.11, 1.24),
      WireSpec("12", 19, 25, 2.18, 3.33, 3.48, 1.89),
      WireSpec("14", 19, 27, 1.70, 2.84, 3.00, 3.00),
      WireSpec("16", 19, 29, 1.35, 2.51, 2.67, 4.76),
      WireSpec("18", 19, 30, 1.19, 2.29, 2.39, 6.10),
      WireSpec("20", 19, 32, 0.97, 2.03, 2.13, 9.77),
      WireSpec("22", 19, 34, 0.76, 1.80, 1.91, 16.0),
      WireSpec("24", 19, 36, 0.61, 1.52, 1.63, 25.9)
    ])
  }

  /** M22759/9 (generate_m22759.py:81-99). */
  function Slash9(): SlashSpec {
    SlashSpec("Silver Plated Copper", "Extruded PTFE", 200, 1000, [
      WireSpec("8", 133, 29, 4.11, 5.13, 5.38, 0.658),
      WireSpec("10", 37, 26, 2.74, 3.48, 3.68, 1.19),
      WireSpec("12", 19, 25, 2.18, 2.95, 3.15, 1.81),
      WireSpec("14", 19, 27, 1.70, 2.46, 2.62, 2.88),
      WireSpec("16", 19, 29, 1.35, 2.11, 2.21, 4.52),
      WireSpec("18", 19, 30, 1.19, 1.93, 2.03, 5.79),
      WireSpec("20", 19, 32, 0.97, 1.68, 1.78, 9.19),
      WireSpec("22", 19, 34, 0.76, 1.47, 1.57, 15.1),
      WireSpec("24", 19, 36, 0.61, 1.30, 1.40, 24.3),
      WireSpec("26", 19, 38, 0.48, 1.17, 1.27, 38.4),
      WireSpec("28", 7, 36, 0.38, 1.04, 1.14, 63.8)
    ])
  }

  /** M22759/10 (generate_m22759.py:101-119). */
  function Slash10(): SlashSpec {
    SlashSpec("Nickel Plated Copper", "Extruded PTFE", 260, 1000, [
      WireSpec("8", 133, 29, 4.14, 5.13, 5.38, 0.694),
      WireSpec("10", 37, 26, 2.77, 3.48, 3.68, 1.24),
      WireSpec("12", 19, 25, 2.18, 2.95, 3.15, 1.89),
      WireSpec("14", 19, 27, 1.70, 2.46, 2.62, 3.00),
      WireSpec("16", 19, 29, 1.35, 2.11, 2.21, 4.76),
      WireSpec("18", 19, 30, 1.19, 1.93, 2.03, 6.10),
      WireSpec("20", 19, 32, 0.97, 1.68, 1.78, 9.77),
      WireSpec("22", 19, 34, 0.76, 1.47, 1.57, 16.0),
      WireSpec("24", 19, 36, 0.61, 1.30, 1.40, 25.9),
      WireSpec("26", 19, 38, 0.48, 1.17, 1.27, 42.2),
      WireSpec("28", 7, 36, 0.38, 1.04, 1.14, 67.9)
    ])
  }

  /** M22759/11 (generate_m22759.py:121-139). */
  function Slash11(): SlashSpec {
    SlashSpec("Silver Plated Copper", "Extruded PTFE (medium weight)", 200, 600, [
      WireSpec("8", 133, 29, 4.11, 5.03, 5.23, 0.658),
      WireSpec("10", 37, 26, 2.74, 3.43, 3.63, 1.19),
      WireSpec("12", 19, 25, 2.18, 2.74, 2.90, 1.81),
      WireSpec("14", 19, 27, 1.70, 2.24, 2.34, 2.88),
      WireSpec("16", 19, 29, 1.35, 1.85, 1.96, 4.52),
      WireSpec("18", 19, 30, 1.19, 1.68, 1.78, 5.79),
      WireSpec("20", 19, 32, 0.97, 1.42, 1.52, 9.19),
      WireSpec("22", 19, 34, 0.76, 1.19, 1.30, 15.1),
      WireSpec("24", 19, 36, 0.61, 1.04, 1.14, 24.3),
      WireSpec("26", 19, 38, 0.48, 0.91, 1.02, 38.4),
      WireSpec("28", 7, 36, 0.38, 0.79, 0.89, 63.8)
    ])
  }

  /** M22759/12 (generate_m22759.py:141-159). */
  function Slash12(): SlashSpec {
    SlashSpec("Nickel Plated Copper", "Extruded PTFE (medium weight)", 260, 600, [
      WireSpec("8", 133, 29, 4.14, 5.08, 5.28, 0.694),
      WireSpec("10", 37, 26, 2.77, 3.43, 3.63, 1.24),
      WireSpec("12", 19, 25, 2.18, 2.74, 2.90, 1.89),
      WireSpec("14", 19, 27, 1.70, 2.24, 2.34, 3.00),
      WireSpec("16", 19, 29, 1.35, 1.85, 1.96, 4.76),
      WireSpec("18", 19, 30, 1.19, 1.68, 1.78, 6.10),
      WireSpec("20", 19, 32, 0.97, 1.42, 1.52, 9.77),
      WireSpec("22", 19, 34, 0.76, 1.19, 1.30, 16.0),
      WireSpec("24", 19, 36, 0.61, 1.04, 1.14, 25.9),
      WireSpec("26", 19, 38, 0.48, 0.914, 1.02, 42.2),
      WireSpec("28", 7, 36, 0.38, 0.79, 0.89, 67.9)
    ])
  }

  /** M22759/16 (generate_m22759.py:161-183). */
  function Slash16(): SlashSpec {
    SlashSpec("Tin Plated Copper", "Extruded ETFE", 150, 600, [
      WireSpec("2/0", 1330, 30, 11.7, 13.7, 14.0, 0.091),
      WireSpec("1/0", 1045, 30, 10.5, 12.0, 12.3, 0.126),
      WireSpec("1", 817, 30, 9.40, 10.8, 11.1, 0.149),
      WireSpec("2", 665, 30, 8.38, 9.75, 9.96, 0.183),
      WireSpec("4", 133, 25, 6.60, 7.82, 8.03, 0.280),
      WireSpec("6", 133, 27, 5.13, 6.27, 6.43, 0.445),
      WireSpec("8", 133, 29, 4.11, 4.98, 5.13, 0.701),
      WireSpec("10", 37, 26, 2.79, 3.45, 3.61, 1.26),
      WireSpec("12", 37, 28, 2.18, 2.82, 2.97, 2.02),
      WireSpec("14", 19, 27, 1.70, 2.31, 2.41, 3.06),
      WireSpec("16", 19, 29, 1.35, 1.96, 2.06, 4.81),
      WireSpec("18", 19, 30, 1.22, 1.75, 1.85, 6.23),
      WireSpec("20", 19, 32, 0.97, 1.47, 1.57, 9.88),
      WireSpec("22", 19, 34, 0.76, 1.27, 1.37, 16.2),
      WireSpec("24", 19, 36, 0.61, 1.09, 1.19, 26.2)
    ])
  }

  /** M22759/17 (generate_m22759.py:185-196). */
  function Slash17(): SlashSpec {
    SlashSpec("Silver Plated High-Strength Copper Alloy", "Extruded ETFE", 150, 600, [
      WireSpec("20", 19, 32, 0.97, 1.47, 1.57, 10.7),
      WireSpec("22", 19, 34, 0.76, 1.27, 1.37, 17.5),
      WireSpec("24", 19, 36, 0.61, 1.09, 1.19, 28.4),
      WireSpec("26", 19, 38, 0.48, 0.97, 1.07, 44.8)
    ])
  }

  /** M22759/18 (generate_m22759.py:198-214). */
  function Slash18(): SlashSpec {
    SlashSpec("Tin Plated Copper", "Extruded ETFE (light weight)", 150, 600, [
      WireSpec("10", 37, 26, 2.79, 3.33, 3.48, 1.26),
      WireSpec("12", 37, 28, 2.18, 2.64, 2.80, 2.02),
      WireSpec("14", 19, 27, 1.70, 2.11, 2.21, 3.06),
      WireSpec("16", 19, 29, 1.35, 1.73, 1.83, 4.81),
      WireSpec("18", 19, 30, 1.19, 1.50, 1.60, 6.23),
      WireSpec("20", 19, 32, 0.97, 1.24, 1.35, 9.88),
      WireSpec("22", 19, 34, 0.76, 1.04, 1.14, 16.2),
      WireSpec("24", 19, 36, 0.61, 0.86, 0.97, 26.2),
      WireSpec("26", 19, 38, 0.48, 0.76, 0.86, 41.3)
    ])
  }

  /** M22759/19 (generate_m22759.py:216-227). */
  function Slash19(): SlashSpec {
    SlashSpec("Silver Plated High-Strength Copper Alloy", "Extruded ETFE (light weight)", 150, 600, [
      WireSpec("20", 19, 32, 0.97, 1.24, 1.35, 10.7),
      WireSpec("22", 19, 34, 0.76, 1.04, 1.14, 17.5),
      WireSpec("24", 19, 36, 0.61, 0.86, 0.97, 28.4),
      WireSpec("26", 19, 38, 0.48, 0.76, 0.86, 44.8)
    ])
  }

  /** M22759/20 (generate_m22759.py:229-241). */
  function Slash20(): SlashSpec {
    SlashSpec("Silver Plated High-Strength Copper Alloy", "Extruded PTFE", 200, 1000, [
      WireSpec("20", 19, 32, 0.97, 1.68, 1.78, 10.7),
      WireSpec("22", 19, 34, 0.76, 1.47, 1.57, 17.5),
      WireSpec("24", 19, 36, 0.61, 1.30, 1.40, 28.4),
      WireSpec("26", 19, 38, 0.48, 1.17, 1.27, 44.8),
      WireSpec("28", 7, 36, 0.38, 1.04, 1.14, 74.4)
    ])
  }

  /** M22759/21 (generate_m22759.py:243-255). */
  function Slash21(): SlashSpec {
    SlashSpec("Nickel Plated High-Strength Copper Alloy", "Extruded PTFE", 260, 1000, [
      WireSpec("20", 19, 32, 0.97, 1.68, 1.78, 11.4),
      WireSpec("22", 19, 34, 0.76, 1.47, 1.57, 18.6),
      WireSpec("24", 19, 36, 0.61, 1.30, 1.40, 30.1),
      WireSpec("26", 19, 38, 0.48, 1.17, 1.27, 49.4),
      WireSpec("28", 7, 36, 0.38, 1.04, 1.14, 79.0)
    ])
  }

  /** M22759/22 (generate_m22759.py:257-269). */
  function Slash22(): SlashSpec {
    SlashSpec("Silver Plated High-Strength Copper Alloy", "Extruded PTFE (light weight)", 200, 600, [
      WireSpec("20", 19, 32, 0.97, 1.42, 1.52, 10.7),
      WireSpec("22", 19, 34, 0.76, 1.19, 1.30, 17.5),
      WireSpec("24", 19, 36, 0.61, 1.04, 1.14, 28.4),
      WireSpec("26", 19, 38, 0.48, 0.91, 1.02, 44.8),
      WireSpec("28", 7, 36, 0.38, 0.79, 0.89, 74.4)
    ])
  }

  /** M22759/23 (generate_m22759.py:271-283). */
  function Slash23(): SlashSpec {
    SlashSpec("Nickel Plated High-Strength Copper Alloy", "Extruded PTFE (light weight)", 260, 600, [
      WireSpec("20", 19, 32, 0.97, 1.42, 1.52, 11.4),
      WireSpec("22", 19, 34, 0.76, 1.19, 1.30, 18.6),
      WireSpec("24", 19, 36, 0.61, 1.04, 1.14, 30.1),
      WireSpec("26", 19, 38, 0.48, 0.91, 1.02, 49.4),
      WireSpec("28", 7, 36, 0.38, 0.79, 0.89, 79.0)
    ])
  }

  /** M22759/28 (generate_m22759.py:285-300). */
  function Slash28(): SlashSpec {
    SlashSpec("Silver Plated Copper", "PTFE with polyimide hardcoat", 200, 600, [
      WireSpec("14", 19, 27, 1.70, 2.24, 2.39, 2.88),
      WireSpec("16", 19, 29, 1.35, 1.85, 2.01, 4.52),
      WireSpec("18", 19, 30, 1.19, 1.70, 1.80, 5.79),
      WireSpec("20", 19, 32, 0.97, 1.45, 1.55, 9.19),
      WireSpec("22", 19, 34, 0.76, 1.22, 1.32, 15.1),
      WireSpec("24", 19, 36, 0.61, 1.07, 1.17, 24.3),
      WireSpec("26", 19, 38, 0.48, 0.94, 1.04, 38.4),
      WireSpec("28", 7, 36, 0.38, 0.81, 0.91, 63.8)
    ])
  }

  /** M22759/29 (generate_m22759.py:302-317). */
  function Slash29(): SlashSpec {
    SlashSpec("Nickel Plated Copper", "PTFE with polyimide hardcoat", 260, 600, [
      WireSpec("14", 19, 27, 1.70, 2.24, 2.39, 3.00),
      WireSpec("16", 19, 29, 1.35, 1.85, 2.01, 4.76),
      WireSpec("18", 19, 30, 1.19, 1.70, 1.80, 6.10),
      WireSpec("20", 19, 32, 0.97, 1.45, 1.55, 9.77),
      WireSpec("22", 19, 34, 0.76, 1.22, 1.32, 16.0),
      WireSpec("24", 19, 36, 0.61, 1.07, 1.17, 25.9),
      WireSpec("26", 19, 38, 0.48, 0.94, 1.04, 42.2),
      WireSpec("28", 7, 36, 0.38, 0.81, 0.91, 67.9)
    ])
  }

  /** M22759/30 (generate_m22759.py:319-331). */
  function Slash30(): SlashSpec {
    SlashSpec("Silver Plated High-Strength Copper Alloy", "PTFE with polyimide hardcoat", 200, 600, [
      WireSpec("20", 19, 32, 0.97, 1.45, 1.55, 10.7),
      WireSpec("22", 19, 34, 0.76, 1.22, 1.32, 17.5),
      WireSpec("24", 19, 36, 0.61, 1.07, 1.17, 28.4),
      WireSpec("26", 19, 38, 0.48, 0.94, 1.04, 44.8),
      WireSpec("28", 7, 36, 0.38, 0.81, 0.91, 74.4)
    ])
  }

  /** M22759/31 (generate_m22759.py:333-345). */
  function Slash31(): SlashSpec {
    SlashSpec("Nickel Plated High-Strength Copper Alloy", "PTFE with polyimide hardcoat", 260, 600, [
      WireSpec("20", 19, 32, 0.97, 1.45, 1.55, 11.4),
      WireSpec("22", 19, 34, 0.76, 1.22, 1.32, 18.6),
      WireSpec("24", 19, 36, 0.61, 1.07, 1.17, 30.1),
      WireSpec("26", 19, 38, 0.48, 0.94, 1.04, 49.4),
      WireSpec("28", 7, 36, 0.38, 0.81, 0.91, 79.0)
    ])
  }

  /** M22759/80 (generate_m22759.py:347-363). */
  function Slash80(): SlashSpec {
    SlashSpec("Tin Plated Copper", "PTFE/polyimide/PTFE tape (light weight)", 150, 600, [
      WireSpec("10", 37, 26, 2.69, 3.02, 3.12, 1.26),
      WireSpec("12", 37, 28, 2.12, 2.44, 2.54, 2.02),
      WireSpec("14", 19, 27, 1.64, 1.93, 2.03, 3.06),
      WireSpec("16", 19, 29, 1.31, 1.60, 1.70, 4.81),
      WireSpec("18", 19, 30, 1.16, 1.42, 1.52, 6.23),
      WireSpec("20", 19, 32, 0.93, 1.22, 1.30, 9.88),
      WireSpec("22", 19, 34, 0.72, 1.02, 1.09, 16.2),
      WireSpec("24", 19, 36, 0.57, 0.86, 0.97, 26.2),
      WireSpec("26", 19, 38, 0.44, 0.76, 0.86, 41.3)
    ])
  }

  /** M22759/81 (generate_m22759.py:365-376). */
  function Slash81(): SlashSpec {
    SlashSpec("Silver Plated High-Strength Copper Alloy", "PTFE/polyimide/PTFE tape (light weight)", 200, 600, [
      WireSpec("20", 19, 32, 0.93, 1.22, 1.30, 10.7),
      WireSpec("22", 19, 34, 0.72, 1.02, 1.09, 17.5),
      WireSpec("24", 19, 36, 0.57, 0.86, 0.97, 28.4),
      WireSpec("26", 19, 38, 0.44, 0.76, 0.86, 56.4)
    ])
  }

  /** M22759/82 (generate_m22759.py:378-389). */
  function Slash82(): SlashSpec {
    SlashSpec("Nickel Plated High-Strength Copper Alloy", "PTFE/polyimide/PTFE tape (light weight)", 260, 600, [
      WireSpec("20", 19, 32, 0.93, 1.22, 1.30, 11.4),
      WireSpec("22", 19, 34, 0.72, 1.02, 1.09, 18.6),
      WireSpec("24", 19, 36, 0.57, 0.86, 0.97, 30.1),
      WireSpec("26", 19, 38, 0.44, 0.72, 0.86, 58.4)
    ])
  }

  /** M22759/83 (generate_m22759.py:391-404). */
  function Slash83(): SlashSpec {
    SlashSpec("Silver Plated Copper", "PTFE/polyimide/PTFE tape with polyamide braid", 200, 600, [
      WireSpec("4/0", 2109, 30, 14.35, 15.62, 16.64, 0.054),
      WireSpec("3/0", 1665, 30, 12.70, 14.07, 14.83, 0.068),
      WireSpec("2/0", 1330, 30, 11.18, 12.65, 13.41, 0.085),
      WireSpec("0", 1045, 30, 10.03, 11.23, 11.73, 0.108),
      WireSpec("1", 817, 30, 9.30, 10.16, 10.67, 0.139),
      WireSpec("2", 665, 30, 8.13, 9.14, 9.65, 0.170)
    ])
  }

  /** M22759/84 (generate_m22759.py:406-419). */
  function Slash84(): SlashSpec {
    SlashSpec("Nickel Plated Copper", "PTFE/polyimide/PTFE tape with polyamide braid", 260, 600, [
      WireSpec("4/0", 2109, 30, 14.35, 15.62, 16.64, 0.056),
      WireSpec("3/0", 1665, 30, 12.70, 14.07, 14.83, 0.071),
      WireSpec("2/0", 1330, 30, 11.18, 12.65, 13.41, 0.089),
      WireSpec("0", 1045, 30, 10.03, 11.23, 11.73, 0.113),
      WireSpec("1", 817, 30, 9.30, 10.16, 10.67, 0.144),
      WireSpec("2", 665, 30, 8.13, 9.14, 9.65, 0.177)
    ])
  }

  /** M22759/85 (generate_m22759.py:421-434). */
  function Slash85(): SlashSpec {
    SlashSpec("Tin Plated Copper", "PTFE/polyimide/PTFE tape with polyamide braid", 150, 600, [
      WireSpec("4/0", 2109, 30, 14.35, 15.62, 16.64, 0.056),
      WireSpec("3/0", 1665, 30, 12.70, 14.07, 14.83, 0.071),
      WireSpec("2/0", 1330, 30, 11.18, 12.65, 13.41, 0.091),
      WireSpec("0", 1045, 30, 10.03, 11.23, 11.73, 0.116),
      WireSpec("1", 817, 30, 9.30, 10.16, 10.67, 0.149),
      WireSpec("2", 665, 30, 8.13, 9.14, 9.65, 0.183)
    ])
  }

  /** M22759/86 (generate_m22759.py:436-461). */
  function Slash86(): SlashSpec {
    SlashSpec("Silver Plated Copper", "PTFE/polyimide tape", 200, 600, [
      WireSpec("4/0", 2109, 30, 14.35, 14.99, 16.00, 0.054),
      WireSpec("3/0", 1665, 30, 12.70, 13.46, 14.22, 0.068),
      WireSpec("2/0", 1330, 30, 11.18, 12.07, 12.83, 0.085),
      WireSpec("0", 1045, 30, 10.03, 10.67, 11.43, 0.108),
      WireSpec("1", 817, 30, 9.30, 9.86, 10.36, 0.139),
      WireSpec("2", 665, 30, 8.13, 8.74, 9.25, 0.170),
      WireSpec("4", 133, 25, 6.35, 7.01, 7.32, 0.264),
      WireSpec("6", 133, 27, 5.03, 5.56, 5.82, 0.418),
      WireSpec("8", 133, 29, 4.01, 4.57, 4.78, 0.658),
      WireSpec("10", 37, 26, 2.69, 3.10, 3.23, 1.19),
      WireSpec("12", 37, 28, 2.12, 2.54, 2.67, 1.90),
      WireSpec("14", 19, 27, 1.64, 2.06, 2.18, 2.88),
      WireSpec("16", 19, 29, 1.31, 1.73, 1.85, 4.52),
      WireSpec("18", 19, 30, 1.16, 1.55, 1.65, 5.79),
      WireSpec("20", 19, 32, 0.93, 1.30, 1.40, 9.19),
      WireSpec("22", 19, 34, 0.72, 1.09, 1.19, 15.1),
      WireSpec("24", 19, 36, 0.57, 0.97, 1.07, 24.3),
      WireSpec("26", 19, 38, 0.44, 0.84, 0.94, 38.4)
    ])
  }

  /** M22759/87 (generate_m22759.py:463-488). */
  function Slash87(): SlashSpec {
    SlashSpec("Nickel Plated Copper", "PTFE/polyimide tape", 260, 600, [
      WireSpec("4/0", 2109, 30, 14.35, 14.99, 16.00, 0.056),
      WireSpec("3/0", 1665, 30, 12.70, 13.46, 14.22, 0.071),
      WireSpec("2/0", 1330, 30, 11.18, 12.07, 12.83, 0.089),
      WireSpec("0", 1045, 30, 10.03, 10.67, 11.43, 0.113),
      WireSpec("1", 817, 30, 9.30, 9.86, 10.36, 0.144),
      WireSpec("2", 665, 30, 8.13, 8.74, 9.25, 0.177),
      WireSpec("4", 133, 25, 6.35, 7.01, 7.32, 0.275),
      WireSpec("6", 133, 27, 5.03, 5.56, 5.82, 0.436),
      WireSpec("8", 133, 29, 4.01, 4.57, 4.78, 0.694),
      WireSpec("10", 37, 26, 2.69, 3.10, 3.23, 1.24),
      WireSpec("12", 37, 28, 2.12, 2.54, 2.67, 1.98),
      WireSpec("14", 19, 27, 1.64, 2.06, 2.18, 3.00),
      WireSpec("16", 19, 29, 1.31, 1.73, 1.85, 4.76),
      WireSpec("18", 19, 30, 1.16, 1.55, 1.65, 6.10),
      WireSpec("20", 19, 32, 0.93, 1.30, 1.40, 9.77),
      WireSpec("22", 19, 34, 0.72, 1.09, 1.19, 16.0),
      WireSpec("24", 19, 36, 0.57, 0.97, 1.07, 25.9),
      WireSpec("26", 19, 38, 0.44, 0.84, 0.94, 42.2)
    ])
  }

  /** M22759/88 (generate_m22759.py:490-515). */
  function Slash88(): SlashSpec {
    SlashSpec("Tin Plated Copper", "PTFE/polyimide tape", 150, 600, [
      WireSpec("4/0", 2109, 30, 14.35, 14.99, 16.00, 0.056),
      WireSpec("3/0", 1665, 30, 12.70, 13.46, 14.22, 0.071),
      WireSpec("2/0", 1330, 30, 11.18, 12.07, 12.83, 0.091),
      WireSpec("0", 1045, 30, 10.03, 10.67, 11.43, 0.116),
      WireSpec("1", 817, 30, 9.30, 9.86, 10.36, 0.149),
      WireSpec("2", 665, 30, 8.13, 8.74, 9.25, 0.183),
      WireSpec("4", 133, 25, 6.35, 7.01, 7.32, 0.280),
      WireSpec("6", 133, 27, 5.03, 5.56, 5.82, 0.445),
      WireSpec("8", 133, 29, 4.01, 4.57, 4.78, 0.701),
      WireSpec("10", 37, 26, 2.69, 3.10, 3.23, 1.26),
      WireSpec("12", 37, 28, 2.12, 2.54, 2.67, 2.02),
      WireSpec("14", 19, 27, 1.64, 2.06, 2.18, 3.06),
      WireSpec("16", 19, 29, 1.31, 1.73, 1.85, 4.81),
      WireSpec("18", 19, 30, 1.16, 1.55, 1.65, 6.23),
      WireSpec("20", 19, 32, 0.93, 1.30, 1.40, 9.88),
      WireSpec("22", 19, 34, 0.73, 1.09, 1.19, 16.2),
      WireSpec("24", 19, 36, 0.57, 0.97, 1.07, 26.2),
      WireSpec("26", 19, 38, 0.44, 0.84, 0.94, 41.3)
    ])
  }

  /** M22759/89 (generate_m22759.py:517-528). */
  function Slash89(): SlashSpec {
    SlashSpec("Silver Plated High-Strength Copper Alloy", "PTFE/polyimide tape", 200, 600, [
      WireSpec("20", 19, 32, 0.93, 1.30, 1.40, 10.7),
      WireSpec("22", 19, 34, 0.72, 1.09, 1.19, 17.5),
      WireSpec("24", 19, 36, 0.57, 0.965, 1.07, 28.4),
      WireSpec("26", 19, 38, 0.44, 0.84, 0.94, 56.4)
    ])
  }

  /** M22759/90 (generate_m22759.py:530-541). */
  function Slash90(): SlashSpec {
    SlashSpec("Nickel Plated High-Strength Copper Alloy", "PTFE/polyimide tape", 260, 600, [
      WireSpec("20", 19, 32, 0.93, 1.30, 1.40, 11.4),
      WireSpec("22", 19, 34, 0.72, 1.09, 1.19, 18.6),
      WireSpec("24", 19, 36, 0.57, 0.965, 1.07, 30.1),
      WireSpec("26", 19, 38, 0.44, 0.84, 0.94, 58.4)
    ])
  }

  /** M22759/91 (generate_m22759.py:543-559). */
  function Slash91(): SlashSpec {
    SlashSpec("Silver Plated Copper", "PTFE/polyimide/PTFE tape (light weight)", 200, 600, [
      WireSpec("10", 37, 26, 2.69, 3.02, 3.12, 1.19),
      WireSpec("12", 37, 28, 2.12, 2.44, 2.54, 1.90),
      WireSpec("14", 19, 27, 1.64, 1.93, 2.03, 2.88),
      WireSpec("16", 19, 29, 1.31, 1.60, 1.70, 4.52),
      WireSpec("18", 19, 30, 1.16, 1.42, 1.52, 5.79),
      WireSpec("20", 19, 32, 0.93, 1.22, 1.30, 9.19),
      WireSpec("22", 19, 34, 0.72, 1.02, 1.09, 15.1),
      WireSpec("24", 19, 36, 0.57, 0.86, 0.97, 24.3),
      WireSpec("26", 19, 38, 0.44, 0.76, 0.86, 38.4)
    ])
  }

  /** M22759/92 (generate_m22759.py:561-577). */
  function Slash92(): SlashSpec {
    SlashSpec("Nickel Plated Copper", "PTFE/polyimide/PTFE tape (light weight)", 260, 600, [
      WireSpec("10", 37, 26, 2.69, 3.02, 3.12, 1.24),
      WireSpec("12", 37, 28, 2.12, 2.44, 2.54, 1.98),
      WireSpec("14", 19, 27, 1.64, 1.93, 2.03, 3.00),
      WireSpec("16", 19, 29, 1.31, 1.60, 1.70, 4.76),
      WireSpec("18", 19, 30, 1.16, 1.42, 1.52, 6.10),
      WireSpec("20", 19, 32, 0.93, 1.22, 1.30, 9.77),
      WireSpec("22", 19, 34, 0.72, 1.02, 1.09, 16.0),
      WireSpec("24", 19, 36, 0.57, 0.86, 0.97, 25.9),
      WireSpec("26", 19, 38, 0.44, 0.76, 0.86, 42.2)
    ])
  }

  /** `m22759_specs`: its slash keys with their sheets, in insertion order. */
  function Table(): seq<Sheet> {
    [Sheet("5", Slash5()), Sheet("6", Slash6()), Sheet("7", Slash7()), Sheet("8", Slash8()),
     Sheet("9", Slash9()), Sheet("10", Slash10()), Sheet("11", Slash11()), Sheet("12", Slash12()),
     Sheet("16", Slash16()), Sheet("17", Slash17()), Sheet("18", Slash18()), Sheet("19", Slash19()),
     Sheet("20", Slash20()), Sheet("21", Slash21()), Sheet("22", Slash22()), Sheet("23", Slash23()),
     Sheet("28", Slash28()), Sheet("29", Slash29()), Sheet("30", Slash30()), Sheet("31", Slash31()),
     Sheet("80", Slash80()), Sheet("81", Slash81()), Sheet("82", Slash82()), Sheet("83", Slash83()),
     Sheet("84", Slash84()), Sheet("85", Slash85()), Sheet("86", Slash86()), Sheet("87", Slash87()),
     Sheet("88", Slash88()), Sheet("89", Slash89()), Sheet("90", Slash90()), Sheet("91", Slash91()),
     Sheet("92", Slash92())]
  }

  // ---------------------------------------------------------------------------
  // What the table guarantees
  // ---------------------------------------------------------------------------

  /** Characters a gauge is written with: digits, and '/' in the "2/0" sizes. */
  predicate GaugeChar(c: char) {
    IsDigit(c) || c == '/'
  }

  /** A gauge label: a non-empty run of digits and '/'. */
  predicate GaugeText(g: string) {
    |g| > 0 && forall i :: 0 <= i < |g| ==> GaugeChar(g[i])
  }

  /** A wire whose insulation encloses its conductor: conductor < minimum <= maximum diameter. */
  predicate WellFormedWire(w: WireSpec) {
    GaugeText(w.gauge) && w.conductorDia < w.insulationMin <= w.insulationMax
  }

  predicate WiresWellFormed(ws: seq<WireSpec>) {
    forall i :: 0 <= i < |ws| ==> WellFormedWire(ws[i])
  }

  /** No label occurs twice. */
  predicate Distinct(ss: seq<string>) {
    forall i, j :: 0 <= i < j < |ss| ==> ss[i] != ss[j]
  }

  /** The gauges of a sheet's wires, in order. */
  function GaugeLabels(ws: seq<WireSpec>): seq<string> {
    seq(|ws|, i requires 0 <= i < |ws| => ws[i].gauge)
  }

  /** The slash keys of a table, in order. */
  function SlashKeys(t: seq<Sheet>): seq<string> {
    seq(|t|, k requires 0 <= k < |t| => t[k].slash)
  }

  /** A sheet whose wires are well-formed and list no gauge twice. */
  predicate WellFormedSpec(s: SlashSpec) {
    WiresWellFormed(s.specs) && Distinct(GaugeLabels(s.specs))
  }

  /** A table with numeric, distinct slash keys and well-formed sheets. */
  predicate WellFormedTable(t: seq<Sheet>) {
    && (forall k :: 0 <= k < |t| ==> AllDigits(t[k].slash) && WellFormedSpec(t[k].spec))
    && Distinct(SlashKeys(t))
  }

  // ---------------------------------------------------------------------------
  // Checking the constant table
  // ---------------------------------------------------------------------------

  // The verifier settles each fact below by evaluating literals; the facts
  // are cut small so that each evaluation stays cheap.

  /** The slash keys of `m22759_specs`, as written. */
  const Slashes: seq<string> :=
    ["5", "6", "7", "8", "9", "10", "11", "12", "16", "17", "18",
      "19", "20", "21", "22", "23", "28", "29", "30", "31", "80", "81",
      "82", "83", "84", "85", "86", "87", "88", "89", "90", "91", "92"]

  lemma TableKeysLow()
    ensures |Table()| == |Slashes|
    ensures forall k :: 0 <= k < 17 ==> Table()[k].slash == Slashes[k]
  {
  }

  lemma TableKeysHigh()
    ensures forall k :: 17 <= k < 33 ==> Table()[k].slash == Slashes[k]
  {
  }

  lemma SlashesNumeric()
    ensures forall k :: 0 <= k < |Slashes| ==> AllDigits(Slashes[k])
  {
  }

  lemma SlashesDistinct0() ensures forall i, j :: 0 <= i < j < 5 ==> Slashes[i] != Slashes[j] {}
  lemma SlashesDistinct1() ensures forall i, j :: 0 <= i < 5 <= j < 33 ==> Slashes[i] != Slashes[j] {}
  lemma SlashesDistinct2() ensures forall i, j :: 5 <= i < j < 19 ==> Slashes[i] != Slashes[j] {}
  lemma SlashesDistinct3() ensures forall i, j :: 5 <= i < 19 <= j < 33 ==> Slashes[i] != Slashes[j] {}
  lemma SlashesDistinct4() ensures forall i, j :: 19 <= i < j < 33 ==> Slashes[i] != Slashes[j] {}

  lemma Slash5Wires() ensures WiresWellFormed(Slash5().specs) {}
  lemma Slash5Labels() ensures GaugeLabels(Slash5().specs) == ["8", "10", "12", "14", "16", "18", "20", "22", "24"] {}
  lemma Slash5Distinct() ensures Distinct(["8", "10", "12", "14", "16", "18", "20", "22", "24"]) {}
  lemma Slash5WellFormed() ensures WellFormedSpec(Slash5()) { Slash5Wires(); Slash5Labels(); Slash5Distinct(); }

  lemma Slash6Wires() ensures WiresWellFormed(Slash6().specs) {}
  lemma Slash6Labels() ensures GaugeLabels(Slash6().specs) == ["8", "10", "12", "14", "16", "18", "20", "22", "24"] {}
  lemma Slash6Distinct() ensures Distinct(["8", "10", "12", "14", "16", "18", "20", "22", "24"]) {}
  lemma Slash6WellFormed() ensures WellFormedSpec(Slash6()) { Slash6Wires(); Slash6Labels(); Slash6Distinct(); }

  lemma Slash7Wires() ensures WiresWellFormed(Slash7().specs) {}
  lemma Slash7Labels() ensures GaugeLabels(Slash7().specs) == ["8", "10", "12", "14", "16", "18", "20", "22", "24"] {}
  lemma Slash7Distinct() ensures Distinct(["8", "10", "12", "14", "16", "18", "20", "22", "24"]) {}
  lemma Slash7WellFormed() ensures WellFormedSpec(Slash7()) { Slash7Wires(); Slash7Labels(); Slash7Distinct(); }

  lemma Slash8Wires() ensures WiresWellFormed(Slash8().specs) {}
  lemma Slash8Labels() ensures GaugeLabels(Slash8().specs) == ["8", "10", "12", "14", "16", "18", "20", "22", "24"] {}
  lemma Slash8Distinct() ensures Distinct(["8", "10", "12", "14", "16", "18", "20", "22", "24"]) {}
  lemma Slash8WellFormed() ensures WellFormedSpec(Slash8()) { Slash8Wires(); Slash8Labels(); Slash8Distinct(); }

  lemma Slash9Wires() ensures WiresWellFormed(Slash9().specs) {}
  lemma Slash9Labels() ensures GaugeLabels(Slash9().specs) == ["8", "10", "12", "14", "16", "18", "20", "22", "24", "26", "28"] {}
  lemma Slash9Distinct() ensures Distinct(["8", "10", "12", "14", "16", "18", "20", "22", "24", "26", "28"]) {}
  lemma Slash9WellFormed() ensures WellFormedSpec(Slash9()) { Slash9Wires(); Slash9Labels(); Slash9Distinct(); }

  lemma Slash10Wires() ensures WiresWellFormed(Slash10().specs) {}
  lemma Slash10Labels() ensures GaugeLabels(Slash10().specs) == ["8", "10", "12", "14", "16", "18", "20", "22", "24", "26", "28"] {}
  lemma Slash10Distinct() ensures Distinct(["8", "10", "12", "14", "16", "18", "20", "22", "24", "26", "28"]) {}
  lemma Slash10WellFormed() ensures WellFormedSpec(Slash10()) { Slash10Wires(); Slash10Labels(); Slash10Distinct(); }

  lemma Slash11Wires() ensures WiresWellFormed(Slash11().specs) {}
  lemma Slash11Labels() ensures GaugeLabels(Slash11().specs) == ["8", "10", "12", "14", "16", "18", "20", "22", "24", "26", "28"] {}
  lemma Slash11Distinct() ensures Distinct(["8", "10", "12", "14", "16", "18", "20", "22", "24", "26", "28"]) {}
  lemma Slash11WellFormed() ensures WellFormedSpec(Slash11()) { Slash11Wires(); Slash11Labels(); Slash11Distinct(); }

  lemma Slash12Wires() ensures WiresWellFormed(Slash12().specs) {}
  lemma Slash12Labels() ensures GaugeLabels(Slash12().specs) == ["8", "10", "12", "14", "16", "18", "20", "22", "24", "26", "28"] {}
  lemma Slash12Distinct() ensures Distinct(["8", "10", "12", "14", "16", "18", "20", "22", "24", "26", "28"]) {}
  lemma Slash12WellFormed() ensures WellFormedSpec(Slash12()) { Slash12Wires(); Slash12Labels(); Slash12Distinct(); }

  lemma Slash16Wires() ensures WiresWellFormed(Slash16().specs) {}
  lemma Slash16Labels() ensures GaugeLabels(Slash16().specs) == ["2/0", "1/0", "1", "2", "4", "6", "8", "10", "12", "14", "16", "18", "20", "22", "24"] {}
  lemma Slash16Distinct() ensures Distinct(["2/0", "1/0", "1", "2", "4", "6", "8", "10", "12", "14", "16", "18", "20", "22", "24"]) {}
  lemma Slash16WellFormed() ensures WellFormedSpec(Slash16()) { Slash16Wires(); Slash16Labels(); Slash16Distinct(); }

  lemma Slash17Wires() ensures WiresWellFormed(Slash17().specs) {}
  lemma Slash17Labels() ensures GaugeLabels(Slash17().specs) == ["20", "22", "24", "26"] {}
  lemma Slash17Distinct() ensures Distinct(["20", "22", "24", "26"]) {}
  lemma Slash17WellFormed() ensures WellFormedSpec(Slash17()) { Slash17Wires(); Slash17Labels(); Slash17Distinct(); }

  lemma Slash18Wires() ensures WiresWellFormed(Slash18().specs) {}
  lemma Slash18Labels() ensures GaugeLabels(Slash18().specs) == ["10", "12", "14", "16", "18", "20", "22", "24", "26"] {}
  lemma Slash18Distinct() ensures Distinct(["10", "12", "14", "16", "18", "20", "22", "24", "26"]) {}
  lemma Slash18WellFormed() ensures WellFormedSpec(Slash18()) { Slash18Wires(); Slash18Labels(); Slash18Distinct(); }

  lemma Slash19Wires() ensures WiresWellFormed(Slash19().specs) {}
  lemma Slash19Labels() ensures GaugeLabels(Slash19().specs) == ["20", "22", "24", "26"] {}
  lemma Slash19Distinct() ensures Distinct(["20", "22", "24", "26"]) {}
  lemma Slash19WellFormed() ensures WellFormedSpec(Slash19()) { Slash19Wires(); Slash19Labels(); Slash19Distinct(); }

  lemma Slash20Wires() ensures WiresWellFormed(Slash20().specs) {}
  lemma Slash20Labels() ensures GaugeLabels(Slash20().specs) == ["20", "22", "24", "26", "28"] {}
  lemma Slash20Distinct() ensures Distinct(["20", "22", "24", "26", "28"]) {}
  lemma Slash20WellFormed() ensures WellFormedSpec(Slash20()) { Slash20Wires(); Slash20Labels(); Slash20Distinct(); }

  lemma Slash21Wires() ensures WiresWellFormed(Slash21().specs) {}
  lemma Slash21Labels() ensures GaugeLabels(Slash21().specs) == ["20", "22", "24", "26", "28"] {}
  lemma Slash21Distinct() ensures Distinct(["20", "22", "24", "26", "28"]) {}
  lemma Slash21WellFormed() ensures WellFormedSpec(Slash21()) { Slash21Wires(); Slash21Labels(); Slash21Distinct(); }

  lemma Slash22Wires() ensures WiresWellFormed(Slash22().specs) {}
  lemma Slash22Labels() ensures GaugeLabels(Slash22().specs) == ["20", "22", "24", "26", "28"] {}
  lemma Slash22Distinct() ensures Distinct(["20", "22", "24", "26", "28"]) {}
  lemma Slash22WellFormed() ensures WellFormedSpec(Slash22()) { Slash22Wires(); Slash22Labels(); Slash22Distinct(); }

  lemma Slash23Wires() ensures WiresWellFormed(Slash23().specs) {}
  lemma Slash23Labels() ensures GaugeLabels(Slash23().specs) == ["20", "22", "24", "26", "28"] {}
  lemma Slash23Distinct() ensures Distinct(["20", "22", "24", "26", "28"]) {}
  lemma Slash23WellFormed() ensures WellFormedSpec(Slash23()) { Slash23Wires(); Slash23Labels(); Slash23Distinct(); }

  lemma Slash28Wires() ensures WiresWellFormed(Slash28().specs) {}
  lemma Slash28Labels() ensures GaugeLabels(Slash28().specs) == ["14", "16", "18", "20", "22", "24", "26", "28"] {}
  lemma Slash28Distinct() ensures Distinct(["14", "16", "18", "20", "22", "24", "26", "28"]) {}
  lemma Slash28WellFormed() ensures WellFormedSpec(Slash28()) { Slash28Wires(); Slash28Labels(); Slash28Distinct(); }

  lemma Slash29Wires() ensures WiresWellFormed(Slash29().specs) {}
  lemma Slash29Labels() ensures GaugeLabels(Slash29().specs) == ["14", "16", "18", "20", "22", "24", "26", "28"] {}
  lemma Slash29Distinct() ensures Distinct(["14", "16", "18", "20", "22", "24", "26", "28"]) {}
  lemma Slash29WellFormed() ensures WellFormedSpec(Slash29()) { Slash29Wires(); Slash29Labels(); Slash29Distinct(); }

  lemma Slash30Wires() ensures WiresWellFormed(Slash30().specs) {}
  lemma Slash30Labels() ensures GaugeLabels(Slash30().specs) == ["20", "22", "24", "26", "28"] {}
  lemma Slash30Distinct() ensures Distinct(["20", "22", "24", "26", "28"]) {}
  lemma Slash30WellFormed() ensures WellFormedSpec(Slash30()) { Slash30Wires(); Slash30Labels(); Slash30Distinct(); }

  lemma Slash31Wires() ensures WiresWellFormed(Slash31().specs) {}
  lemma Slash31Labels() ensures GaugeLabels(Slash31().specs) == ["20", "22", "24", "26", "28"] {}
  lemma Slash31Distinct() ensures Distinct(["20", "22", "24", "26", "28"]) {}
  lemma Slash31WellFormed() ensures WellFormedSpec(Slash31()) { Slash31Wires(); Slash31Labels(); Slash31Distinct(); }

  lemma Slash80Wires() ensures WiresWellFormed(Slash80().specs) {}
  lemma Slash80Labels() ensures GaugeLabels(Slash80().specs) == ["10", "12", "14", "16", "18", "20", "22", "24", "26"] {}
  lemma Slash80Distinct() ensures Distinct(["10", "12", "14", "16", "18", "20", "22", "24", "26"]) {}
  lemma Slash80WellFormed() ensures WellFormedSpec(Slash80()) { Slash80Wires(); Slash80Labels(); Slash80Distinct(); }

  lemma Slash81Wires() ensures WiresWellFormed(Slash81().specs) {}
  lemma Slash81Labels() ensures GaugeLabels(Slash81().specs) == ["20", "22", "24", "26"] {}
  lemma Slash81Distinct() ensures Distinct(["20", "22", "24", "26"]) {}
  lemma Slash81WellFormed() ensures WellFormedSpec(Slash81()) { Slash81Wires(); Slash81Labels(); Slash81Distinct(); }

  lemma Slash82Wires() ensures WiresWellFormed(Slash82().specs) {}
  lemma Slash82Labels() ensures GaugeLabels(Slash82().specs) == ["20", "22", "24", "26"] {}
  lemma Slash82Distinct() ensures Distinct(["20", "22", "24", "26"]) {}
  lemma Slash82WellFormed() ensures WellFormedSpec(Slash82()) { Slash82Wires(); Slash82Labels(); Slash82Distinct(); }

  lemma Slash83Wires() ensures WiresWellFormed(Slash83().specs) {}
  lemma Slash83Labels() ensures GaugeLabels(Slash83().specs) == ["4/0", "3/0", "2/0", "0", "1", "2"] {}
  lemma Slash83Distinct() ensures Distinct(["4/0", "3/0", "2/0", "0", "1", "2"]) {}
  lemma Slash83WellFormed() ensures WellFormedSpec(Slash83()) { Slash83Wires(); Slash83Labels(); Slash83Distinct(); }

  lemma Slash84Wires() ensures WiresWellFormed(Slash84().specs) {}
  lemma Slash84Labels() ensures GaugeLabels(Slash84().specs) == ["4/0", "3/0", "2/0", "0", "1", "2"] {}
  lemma Slash84Distinct() ensures Distinct(["4/0", "3/0", "2/0", "0", "1", "2"]) {}
  lemma Slash84WellFormed() ensures WellFormedSpec(Slash84()) { Slash84Wires(); Slash84Labels(); Slash84Distinct(); }

  lemma Slash85Wires() ensures WiresWellFormed(Slash85().specs) {}
  lemma Slash85Labels() ensures GaugeLabels(Slash85().specs) == ["4/0", "3/0", "2/0", "0", "1", "2"] {}
  lemma Slash85Distinct() ensures Distinct(["4/0", "3/0", "2/0", "0", "1", "2"]) {}
  lemma Slash85WellFormed() ensures WellFormedSpec(Slash85()) { Slash85Wires(); Slash85Labels(); Slash85Distinct(); }

  lemma Slash86Wires() ensures WiresWellFormed(Slash86().specs) {}
  lemma Slash86Labels() ensures GaugeLabels(Slash86().specs) == ["4/0", "3/0", "2/0", "0", "1", "2", "4", "6", "8", "10", "12", "14", "16", "18", "20", "22", "24", "26"] {}
  lemma Slash86Distinct() ensures Distinct(["4/0", "3/0", "2/0", "0", "1", "2", "4", "6", "8", "10", "12", "14", "16", "18", "20", "22", "24", "26"]) {}
  lemma Slash86WellFormed() ensures WellFormedSpec(Slash86()) { Slash86Wires(); Slash86Labels(); Slash86Distinct(); }

  lemma Slash87Wires() ensures WiresWellFormed(Slash87().specs) {}
  lemma Slash87Labels() ensures GaugeLabels(Slash87().specs) == ["4/0", "3/0", "2/0", "0", "1", "2", "4", "6", "8", "10", "12", "14", "16", "18", "20", "22", "24", "26"] {}
  lemma Slash87Distinct() ensures Distinct(["4/0", "3/0", "2/0", "0", "1", "2", "4", "6", "8", "10", "12", "14", "16", "18", "20", "22", "24", "26"]) {}
  lemma Slash87WellFormed() ensures WellFormedSpec(Slash87()) { Slash87Wires(); Slash87Labels(); Slash87Distinct(); }

  lemma Slash88Wires() ensures WiresWellFormed(Slash88().specs) {}
  lemma Slash88Labels() ensures GaugeLabels(Slash88().specs) == ["4/0", "3/0", "2/0", "0", "1", "2", "4", "6", "8", "10", "12", "14", "16", "18", "20", "22", "24", "26"] {}
  lemma Slash88Distinct() ensures Distinct(["4/0", "3/0", "2/0", "0", "1", "2", "4", "6", "8", "10", "12", "14", "16", "18", "20", "22", "24", "26"]) {}
  lemma Slash88WellFormed() ensures WellFormedSpec(Slash88()) { Slash88Wires(); Slash88Labels(); Slash88Distinct(); }

  lemma Slash89Wires() ensures WiresWellFormed(Slash89().specs) {}
  lemma Slash89Labels() ensures GaugeLabels(Slash89().specs) == ["20", "22", "24", "26"] {}
  lemma Slash89Distinct() ensures Distinct(["20", "22", "24", "26"]) {}
  lemma Slash89WellFormed() ensures WellFormedSpec(Slash89()) { Slash89Wires(); Slash89Labels(); Slash89Distinct(); }

  lemma Slash90Wires() ensures WiresWellFormed(Slash90().specs) {}
  lemma Slash90Labels() ensures GaugeLabels(Slash90().specs) == ["20", "22", "24", "26"] {}
  lemma Slash90Distinct() ensures Distinct(["20", "22", "24", "26"]) {}
  lemma Slash90WellFormed() ensures WellFormedSpec(Slash90()) { Slash90Wires(); Slash90Labels(); Slash90Distinct(); }

  lemma Slash91Wires() ensures WiresWellFormed(Slash91().specs) {}
  lemma Slash91Labels() ensures GaugeLabels(Slash91().specs) == ["10", "12", "14", "16", "18", "20", "22", "24", "26"] {}
  lemma Slash91Distinct() ensures Distinct(["10", "12", "14", "16", "18", "20", "22", "24", "26"]) {}
  lemma Slash91WellFormed() ensures WellFormedSpec(Slash91()) { Slash91Wires(); Slash91Labels(); Slash91Distinct(); }

  lemma Slash92Wires() ensures WiresWellFormed(Slash92().specs) {}
  lemma Slash92Labels() ensures GaugeLabels(Slash92().specs) == ["10", "12", "14", "16", "18", "20", "22", "24", "26"] {}
  lemma Slash92Distinct() ensures Distinct(["10", "12", "14", "16", "18", "20", "22", "24", "26"]) {}
  lemma Slash92WellFormed() ensures WellFormedSpec(Slash92()) { Slash92Wires(); Slash92Labels(); Slash92Distinct(); }

  lemma SheetsWellFormed0()
    ensures forall k :: 0 <= k < 11 && k < |Table()| ==> WellFormedSpec(Table()[k].spec)
  {
    Slash5WellFormed();
    Slash6WellFormed();
    Slash7WellFormed();
    Slash8WellFormed();
    Slash9WellFormed();
    Slash10WellFormed();
    Slash11WellFormed();
    Slash12WellFormed();
    Slash16WellFormed();
    Slash17WellFormed();
    Slash18WellFormed();
  }

  lemma SheetsWellFormed1()
    ensures forall k :: 11 <= k < 22 && k < |Table()| ==> WellFormedSpec(Table()[k].spec)
  {
    Slash19WellFormed();
    Slash20WellFormed();
    Slash21WellFormed();
    Slash22WellFormed();
    Slash23WellFormed();
    Slash28WellFormed();
    Slash29WellFormed();
    Slash30WellFormed();
    Slash31WellFormed();
    Slash80WellFormed();
    Slash81WellFormed();
  }

  lemma SheetsWellFormed2()
    ensures forall k :: 22 <= k < 33 && k < |Table()| ==> WellFormedSpec(Table()[k].spec)
  {
    Slash82WellFormed();
    Slash83WellFormed();
    Slash84WellFormed();
    Slash85WellFormed();
    Slash86WellFormed();
    Slash87WellFormed();
    Slash88WellFormed();
    Slash89WellFormed();
    Slash90WellFormed();
    Slash91WellFormed();
    Slash92WellFormed();
  }

  /**
   * The table the generator walks is well-formed: numeric, distinct slash
   * keys, and in every sheet distinct gauges with conductor < minimum <=
   * maximum diameter.
   */
  lemma TableWellFormed()
    ensures WellFormedTable(Table())
  {
    TableKeysLow();
    TableKeysHigh();
    SlashesNumeric();
    SlashesDistinct0();
    SlashesDistinct1();
    SlashesDistinct2();
    SlashesDistinct3();
    SlashesDistinct4();
    SheetsWellFormed0();
    SheetsWellFormed1();
    SheetsWellFormed2();
    assert SlashKeys(Table()) == Slashes;
  }

  // ---------------------------------------------------------------------------
  // One record per wire: create_cable_entry
  // ---------------------------------------------------------------------------

  /** The finished wire's diameter: the mean of the insulation's minimum and maximum diameters. */
  function OuterDiameter(w: WireSpec): real {
    (w.insulationMin + w.insulationMax) / 2.0
  }

  /** The insulation wall: half of what the outer diameter adds to the conductor's. */
  function InsulationThickness(w: WireSpec): real {
    (OuterDiameter(w) - w.conductorDia) / 2.0
  }

  /** `f"m22759-{slash}-{gauge}".replace("/", "-")`. */
  function CableIdOf(slash: string, gauge: string): string {
    ReplaceChar("m22759-" + slash + "-" + gauge, '/', '-')
  }

  /** `f"M22759/{slash}-{gauge}"`. */
  function PartNumberOf(slash: string, gauge: string): string {
    "M22759/" + slash + "-" + gauge
  }

  /** The keys the single core carries beyond the six standard ones. */
  const CoreExtras: map<string, Json> := map[
    "SignalName" := JStr(""),
    "SignalDescription" := JStr(""),
    "PinA" := JStr(""),
    "PinB" := JStr(""),
    "WireLabel" := JStr(""),
    "SignalType" := JInt(0)]

  /** The key the record carries beyond the standard ones. */
  const CableExtras: map<string, Json> := map["FillerMaterial" := JStr("Nylon")]

  /**
   * `create_cable_entry`: a single-core, unshielded record whose core is
   * the wire's conductor and whose jacket is the wire's insulation, so that
   * conductor plus two walls gives the specified outer diameter.
   */
  function CreateCableEntry(slash: string, w: WireSpec, conductorMat: string, insulationType: string): (c: Cable)
    ensures |c.cores| == 1
    ensures c.cores[0].coreId == "1" && c.cores[0].gauge == w.gauge
    ensures c.cores[0].conductorDiameter == w.conductorDia && c.cores[0].conductorMaterial == conductorMat
    ensures c.specifiedOuterDiameter == (w.insulationMin + w.insulationMax) / 2.0
    ensures c.cores[0].conductorDiameter + 2.0 * c.cores[0].insulationThickness == c.specifiedOuterDiameter
    ensures c.jacketThickness == c.cores[0].insulationThickness
    ensures w.conductorDia < w.insulationMin <= w.insulationMax ==> c.cores[0].insulationThickness > 0.0
    ensures c.cableType == 0 && !c.hasShield && !c.hasDrainWire && !c.isFiller
    ensures c.shieldType == 0 && c.shieldThickness == 0.0 && c.shieldCoverage == 0 && c.drainWireDiameter == 0.0
    ensures c.cableId == CableIdOf(slash, w.gauge) && c.partNumber == PartNumberOf(slash, w.gauge)
  {
    var thickness := InsulationThickness(w);
    var core := Core(
      coreId := "1",
      conductorDiameter := w.conductorDia,
      insulationThickness := thickness,
      insulationColor := "Natural",
      gauge := w.gauge,
      conductorMaterial := conductorMat,
      extras := CoreExtras);
    Cable(
      cableId := CableIdOf(slash, w.gauge),
      partNumber := PartNumberOf(slash, w.gauge),
      manufacturer := "MIL-SPEC",
      name := "M22759/" + slash + " " + w.gauge + " AWG " + conductorMat + " - " + insulationType,
      cableType := 0,
      cores := [core],
      jacketThickness := thickness,
      jacketColor := "Natural",
      hasShield := false,
      shieldType := 0,
      shieldThickness := 0.0,
      shieldCoverage := 0,
      hasDrainWire := false,
      drainWireDiameter := 0.0,
      isFiller := false,
      specifiedOuterDiameter := OuterDiameter(w),
      description := None,
      extras := CableExtras)
  }

  /** With a numeric slash key, the id is the prefix, the key, '-' and the gauge with '/' turned into '-'. */
  lemma CableIdShape(slash: string, gauge: string)
    requires DigitsOnly(slash)
    ensures CableIdOf(slash, gauge) == "m22759-" + slash + "-" + ReplaceChar(gauge, '/', '-')
  {
    var s := "m22759-" + slash + "-" + gauge;
    var r := "m22759-" + slash + "-" + ReplaceChar(gauge, '/', '-');
    assert |CableIdOf(slash, gauge)| == |r|;
    forall i | 0 <= i < |r| ensures CableIdOf(slash, gauge)[i] == r[i] {
      if i < 7 {
        assert s[i] == r[i];
      } else if i < 7 + |slash| {
        assert s[i] == slash[i - 7] == r[i];
      } else if i > 7 + |slash| {
        assert s[i] == gauge[i - 8 - |slash|];
      }
    }
  }

  /**
   * The id is the part number in lower case with '/' turned into '-':
   * "M22759/16-2/0" gives "m22759-16-2-0".
   */
  lemma IdFromPartNumber(slash: string, gauge: string)
    requires DigitsOnly(slash) && GaugeText(gauge)
    ensures CableIdOf(slash, gauge) == ReplaceChar(Lower(PartNumberOf(slash, gauge)), '/', '-')
  {
    var s := "m22759-" + slash + "-" + gauge;
    var p := PartNumberOf(slash, gauge);
    var l := Lower(p);
    assert |ReplaceChar(l, '/', '-')| == |CableIdOf(slash, gauge)|;
    forall i | 0 <= i < |s| ensures ReplaceChar(l, '/', '-')[i] == CableIdOf(slash, gauge)[i] {
      if 7 <= i < 7 + |slash| {
        assert p[i] == slash[i - 7] == s[i];
      } else if i > 7 + |slash| {
        assert p[i] == gauge[i - 8 - |slash|] == s[i];
      }
    }
  }

  /** Turning '/' into '-' loses nothing on a gauge label, which has no '-' of its own. */
  lemma GaugeReplaceInjective(g1: string, g2: string)
    requires GaugeText(g1) && GaugeText(g2)
    requires ReplaceChar(g1, '/', '-') == ReplaceChar(g2, '/', '-')
    ensures g1 == g2
  {
    var r := ReplaceChar(g1, '/', '-');
    forall i | 0 <= i < |g1| ensures g1[i] == g2[i] {
      assert GaugeChar(g1[i]) && GaugeChar(g2[i]);
      assert r[i] == ReplaceChar(g2, '/', '-')[i];
    }
  }

  /**
   * Distinct (slash key, gauge) pairs give distinct ids, and equal pairs
   * equal ids: the key ends at the first character after the prefix that
   * is not a digit, and
   * no gauge label carries a '-' of its own.
   */
  lemma CableIdInjective(s1: string, g1: string, s2: string, g2: string)
    requires DigitsOnly(s1) && DigitsOnly(s2) && GaugeText(g1) && GaugeText(g2)
    ensures CableIdOf(s1, g1) == CableIdOf(s2, g2) <==> s1 == s2 && g1 == g2
  {
    if CableIdOf(s1, g1) == CableIdOf(s2, g2) {
      CableIdShape(s1, g1);
      CableIdShape(s2, g2);
      var r1 := ReplaceChar(g1, '/', '-');
      var r2 := ReplaceChar(g2, '/', '-');
      var x1 := s1 + "-" + r1;
      var x2 := s2 + "-" + r2;
      assert x1 == CableIdOf(s1, g1)[7..] == x2;
      RunOver(x1, 0, |s1|, Digits);
      RunOver(x2, 0, |s2|, Digits);
      assert s1 == x1[..|s1|] == x2[..|s2|] == s2;
      assert r1 == x1[|s1| + 1..] == x2[|s2| + 1..] == r2;
      GaugeReplaceInjective(g1, g2);
    }
  }

  // ---------------------------------------------------------------------------
  // The generation loop
  // ---------------------------------------------------------------------------

  /** The record generated for the `i`-th wire of a sheet. */
  function Entry(s: Sheet, i: nat): Cable
    requires i < |s.spec.specs|
  {
    CreateCableEntry(s.slash, s.spec.specs[i], s.spec.conductor, s.spec.insulation)
  }

  /** The records generated for one sheet, in its wire order. */
  function SheetEntries(s: Sheet): seq<Cable> {
    seq(|s.spec.specs|, i requires 0 <= i < |s.spec.specs| => Entry(s, i))
  }

  /** Every record the loop generates over `t`, sheet by sheet in table order. */
  function Generated(t: seq<Sheet>): seq<Cable>
    decreases |t|
  {
    if t == [] then [] else Generated(t[..|t| - 1]) + SheetEntries(t[|t| - 1])
  }

  /** The number of wire tuples in `t`. */
  function SpecCount(t: seq<Sheet>): nat
    decreases |t|
  {
    if t == [] then 0 else SpecCount(t[..|t| - 1]) + |t[|t| - 1].spec.specs|
  }

  /** One record per wire tuple. */
  lemma {:induction false} GeneratedCount(t: seq<Sheet>)
    ensures |Generated(t)| == SpecCount(t)
    decreases |t|
  {
    if t != [] {
      GeneratedCount(t[..|t| - 1]);
    }
  }

  /**
   * The record for wire `i` of sheet `k` sits after the records of every
   * earlier sheet and every earlier wire of the same sheet.
   */
  lemma {:induction false} GeneratedAt(t: seq<Sheet>, k: nat, i: nat)
    requires k < |t| && i < |t[k].spec.specs|
    ensures SpecCount(t[..k]) + i < |Generated(t)|
    ensures Generated(t)[SpecCount(t[..k]) + i] == Entry(t[k], i)
    decreases |t|
  {
    var p := t[..|t| - 1];
    GeneratedCount(p);
    if k == |t| - 1 {
      assert t[..k] == p;
    } else {
      GeneratedAt(p, k, i);
      assert p[..k] == t[..k];
    }
  }

  /** Every generated record is the record of some wire of some sheet, at that wire's position. */
  lemma {:induction false} Coordinates(t: seq<Sheet>, n: nat) returns (k: nat, i: nat)
    requires n < |Generated(t)|
    ensures k < |t| && i < |t[k].spec.specs|
    ensures n == SpecCount(t[..k]) + i
    ensures Generated(t)[n] == Entry(t[k], i)
    decreases |t|
  {
    var p := t[..|t| - 1];
    GeneratedCount(p);
    if n < |Generated(p)| {
      k, i := Coordinates(p, n);
      assert t[..k] == p[..k];
    } else {
      k, i := |t| - 1, n - |Generated(p)|;
      assert t[..k] == p;
    }
  }

  /** Over a well-formed table, every generated record has one core with a positive insulation wall. */
  lemma GeneratedInsulationPositive(t: seq<Sheet>)
    requires WellFormedTable(t)
    ensures forall n :: 0 <= n < |Generated(t)| ==>
              |Generated(t)[n].cores| == 1 && Generated(t)[n].cores[0].insulationThickness > 0.0
  {
    forall n | 0 <= n < |Generated(t)|
      ensures |Generated(t)[n].cores| == 1 && Generated(t)[n].cores[0].insulationThickness > 0.0
    {
      var k, i := Coordinates(t, n);
      assert WellFormedWire(t[k].spec.specs[i]);
    }
  }

  /** Over a well-formed table, the generated ids are pairwise distinct. */
  lemma GeneratedIdsDistinct(t: seq<Sheet>)
    requires WellFormedTable(t)
    ensures forall a, b :: 0 <= a < b < |Generated(t)| ==> Generated(t)[a].cableId != Generated(t)[b].cableId
  {
    var g := Generated(t);
    forall a, b | 0 <= a < b < |g| ensures g[a].cableId != g[b].cableId {
      var k1, i1 := Coordinates(t, a);
      var k2, i2 := Coordinates(t, b);
      var w1, w2 := t[k1].spec.specs[i1], t[k2].spec.specs[i2];
      assert WellFormedWire(w1) && WellFormedWire(w2);
      CableIdInjective(t[k1].slash, w1.gauge, t[k2].slash, w2.gauge);
      if k1 == k2 {
        assert i1 != i2;
        assert GaugeLabels(t[k1].spec.specs)[i1] == w1.gauge;
        assert GaugeLabels(t[k1].spec.specs)[i2] == w2.gauge;
      } else {
        assert SlashKeys(t)[k1] == t[k1].slash && SlashKeys(t)[k2] == t[k2].slash;
      }
    }
  }

  /**
   * The loop over `m22759_specs`: one record per wire, in table order,
   * counting as it goes.
   */
  method Generate(table: seq<Sheet>) returns (allCables: seq<Cable>, totalCount: nat)
    ensures allCables == Generated(table)
    ensures totalCount == |allCables| == SpecCount(table)
  {
    allCables := [];
    totalCount := 0;
    var k := 0;
    while k < |table|
      invariant 0 <= k <= |table|
      invariant allCables == Generated(table[..k])
      invariant totalCount == |allCables|
    {
      var data := table[k];
      var i := 0;
      while i < |data.spec.specs|
        invariant 0 <= i <= |data.spec.specs|
        invariant allCables == Generated(table[..k]) + SheetEntries(data)[..i]
        invariant totalCount == |allCables|
      {
        var cable := CreateCableEntry(data.slash, data.spec.specs[i], data.spec.conductor, data.spec.insulation);
        allCables := allCables + [cable];
        totalCount := totalCount + 1;
        i := i + 1;
      }
      assert SheetEntries(data)[..i] == SheetEntries(data);
      assert table[..k + 1][..k] == table[..k];
      k := k + 1;
    }
    assert table[..k] == table;
    GeneratedCount(table);
  }

  /**
   * Over `m22759_specs` itself: one record per wire tuple, pairwise
   * distinct ids, and a positive insulation wall in every one.
   */
  lemma TableGenerated()
    ensures |Generated(Table())| == SpecCount(Table())
    ensures forall a, b :: 0 <= a < b < |Generated(Table())| ==>
              Generated(Table())[a].cableId != Generated(Table())[b].cableId
    ensures forall n :: 0 <= n < |Generated(Table())| ==>
              |Generated(Table())[n].cores| == 1 && Generated(Table())[n].cores[0].insulationThickness > 0.0
  {
    TableWellFormed();
    GeneratedCount(Table());
    GeneratedIdsDistinct(Table());
    GeneratedInsulationPositive(Table());
  }

  // ---------------------------------------------------------------------------
  // Appending to the library
  // ---------------------------------------------------------------------------

  /** The JSON objects the records are written as. */
  function CablesJson(cs: seq<Cable>): (js: seq<Json>)
    ensures |js| == |cs|
  {
    seq(|cs|, i requires 0 <= i < |cs| => JObj(CableToJson(cs[i])))
  }

  /** The loaded library document's "Cables" list, which the script extends in place. */
  class Library {
    var cables: seq<Json>

    constructor (cables: seq<Json>)
      ensures this.cables == cables
    {
      this.cables := cables;
    }

    /** `library["Cables"].extend(added)`: the existing records stay, in order, in front. */
    method Extend(added: seq<Json>)
      modifies this
      ensures cables == old(cables) + added
      ensures cables[..|old(cables)|] == old(cables)
    {
      cables := cables + added;
    }
  }

  /**
   * The script's body: generate a record per wire tuple of `m22759_specs`
   * and append them all, in table order, after the library's records.
   */
  method AppendGenerated(library: Library) returns (totalCount: nat)
    modifies library
    ensures library.cables == old(library.cables) + CablesJson(Generated(Table()))
    ensures totalCount == |library.cables| - |old(library.cables)| == SpecCount(Table())
  {
    var allCables, count := Generate(Table());
    library.Extend(CablesJson(allCables));
    totalCount := count;
  }
}
