/** The static tables of the Python game (main.py, app.py): the three bikes that can be
    chosen in the garage and the three background themes. */
module Config {

  /** The numeric part of one BIKE_CONFIGS entry. Colour and image file are presentation
      only and are not modelled. */
  datatype BikeSpec = BikeSpec(name: string, grav: real, lean: real, speed: real)

  const AgileScout := BikeSpec("Agile Scout", 0.0012, 0.12, 0.9)
  const BalancedPro := BikeSpec("Balanced Pro", 0.0022, 0.08, 1.1)
  const HeavyBeast := BikeSpec("Heavy Beast", 0.0038, 0.05, 1.5)

  /** BIKE_CONFIGS, keyed by the character typed in the garage. */
  const BikeConfigs: map<string, BikeSpec> :=
    map["1" := AgileScout, "2" := BalancedPro, "3" := HeavyBeast]

  /** The keys of BG_THEMES; the default theme is "K". */
  const BgThemes: set<string> := {"K", "L", "G"}
  const DefaultTheme: string := "K"

  /** Every bike pulls over (positive gravity) and can be corrected (positive lean). */
  lemma BikeConfigsPositive(key: string)
    requires key in BikeConfigs
    ensures BikeConfigs[key].grav > 0.0 && BikeConfigs[key].lean > 0.0
    ensures BikeConfigs[key].speed > 0.0
  {
  }

  /** Upper-case of one character; only ASCII letters are mapped. */
  function UpperChar(c: char): char {
    if 'a' <= c <= 'z' then (c as int - 'a' as int + 'A' as int) as char else c
  }

  /** `str.upper()` restricted to ASCII letters. */
  function Upper(s: string): string {
    seq(|s|, i requires 0 <= i < |s| => UpperChar(s[i]))
  }

  /** A typed character selects a theme exactly when it is k, l or g in either case. */
  lemma ThemeKeys(s: string)
    ensures Upper(s) in BgThemes <==> s in {"k", "K", "l", "L", "g", "G"}
  {
    if Upper(s) in BgThemes {
      assert |s| == 1;
      assert Upper(s)[0] == UpperChar(s[0]);
      assert UpperChar(s[0]) in {'K', 'L', 'G'};
      assert s == [s[0]];
    }
    if s in {"k", "K", "l", "L", "g", "G"} {
      assert Upper(s) == [UpperChar(s[0])];
    }
  }

  /** No selection key is also a theme key, so one key press does at most one of the two. */
  lemma SelectionAndThemeDisjoint(s: string)
    requires s in BikeConfigs
    ensures Upper(s) !in BgThemes
  {
    assert Upper(s) == s;
  }
}
