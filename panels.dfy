/**
 * The links to the external dashboard panels (app.py:99-122): each configured
 * URL is shown as a link, or flagged as not configured when it is still the
 * placeholder or does not look like a web address.
 */
module Panels {

  predicate StartsWith(s: string, prefix: string) {
    |prefix| <= |s| && s[..|prefix|] == prefix
  }

  /** `str.upper()` on the letters the panel names use: ASCII and Latin-1 lower-case letters. */
  function UpperChar(c: char): char {
    if 'a' <= c <= 'z' || ('à' <= c <= 'þ' && c != '÷') then (c as int - 32) as char else c
  }

  function Upper(s: string): (r: string)
    ensures |r| == |s|
    ensures forall i :: 0 <= i < |s| ==> r[i] == UpperChar(s[i])
  {
    if |s| == 0 then [] else [UpperChar(s[0])] + Upper(s[1..])
  }

  /** `s.replace(pattern, replacement)`: every occurrence of `pattern`, scanning left to right without
      overlaps, becomes `replacement`; an empty `pattern` puts `replacement` around every character. */
  function Replace(s: string, pattern: string, replacement: string): string
    decreases |s|
  {
    if |pattern| == 0 then replacement + Interleave(s, replacement)
    else if |s| < |pattern| then s
    else if s[..|pattern|] == pattern then replacement + Replace(s[|pattern|..], pattern, replacement)
    else [s[0]] + Replace(s[1..], pattern, replacement)
  }

  function Interleave(s: string, sep: string): string {
    if |s| == 0 then [] else [s[0]] + sep + Interleave(s[1..], sep)
  }

  predicate OccursAt(s: string, pattern: string, i: nat) {
    i + |pattern| <= |s| && s[i..i + |pattern|] == pattern
  }

  /** Replacing a text that does not occur leaves the string as it is. */
  lemma {:induction false} ReplaceAbsent(s: string, pattern: string, replacement: string)
    requires |pattern| > 0
    requires forall i: nat :: !OccursAt(s, pattern, i)
    ensures Replace(s, pattern, replacement) == s
  {
    if |pattern| <= |s| {
      assert !OccursAt(s, pattern, 0);
      forall i: nat
        ensures !OccursAt(s[1..], pattern, i)
      {
        assert !OccursAt(s, pattern, i + 1);
        if i + |pattern| <= |s[1..]| {
          assert s[1..][i..i + |pattern|] == s[i + 1..i + 1 + |pattern|];
        }
      }
      ReplaceAbsent(s[1..], pattern, replacement);
      assert [s[0]] + s[1..] == s;
    }
  }

  const PlaceholderPrefix: string := "URL_" + "GRAFANA_PANEL_"

  /** The placeholder URL the page expects for a panel that has not been configured. */
  function Placeholder(name: string): (r: string)
    ensures StartsWith(r, PlaceholderPrefix)
  {
    var key := Replace(Replace(Replace(Upper(name), " (DHT22)", ""), " (VEML6070)", ""), " ", "_");
    assert (PlaceholderPrefix + key)[..|PlaceholderPrefix|] == PlaceholderPrefix;
    PlaceholderPrefix + key
  }

  /** For a name without either sensor suffix, the two suffix replacements change nothing:
      the placeholder is the name upper-cased with its spaces turned into underscores. */
  lemma PlaceholderWithoutSuffix(name: string)
    requires forall i: nat :: !OccursAt(Upper(name), " (DHT22)", i)
    requires forall i: nat :: !OccursAt(Upper(name), " (VEML6070)", i)
    ensures Placeholder(name) == PlaceholderPrefix + Replace(Upper(name), " ", "_")
  {
    ReplaceAbsent(Upper(name), " (DHT22)", "");
    ReplaceAbsent(Upper(name), " (VEML6070)", "");
  }

  /** The test of app.py:111. */
  predicate Unconfigured(name: string, url: string) {
    url == Placeholder(name) || !StartsWith(url, "http")
  }

  /** Every placeholder starts with "URL_", so the placeholder comparison never decides
      anything: a URL is flagged exactly when it does not start with "http". */
  lemma FlaggedIffNotHttp(name: string, url: string)
    ensures Unconfigured(name, url) <==> !StartsWith(url, "http")
  {
    if url == Placeholder(name) {
      assert url[0] == PlaceholderPrefix[0] == 'U';
      assert "http"[0] == 'h';
    }
  }

  datatype PanelView = NotConfigured(name: string) | Linked(name: string, url: string)

  function ViewOf(name: string, url: string): PanelView {
    if Unconfigured(name, url) then NotConfigured(name) else Linked(name, url)
  }

  /** The loop over the panel table, in its order (dict insertion order). */
  method ShowPanels(panels: seq<(string, string)>) returns (views: seq<PanelView>)
    ensures |views| == |panels|
    ensures forall i :: 0 <= i < |panels| ==> views[i] == ViewOf(panels[i].0, panels[i].1)
  {
    views := [];
    for k := 0 to |panels|
      invariant |views| == k
      invariant forall i :: 0 <= i < k ==> views[i] == ViewOf(panels[i].0, panels[i].1)
    {
      var (name, url) := panels[k];
      if url == Placeholder(name) || !StartsWith(url, "http") {
        views := views + [NotConfigured(name)];
      } else {
        views := views + [Linked(name, url)];
      }
    }
  }

  /** The panel table as shipped: every URL is still a placeholder. */
  const GrafanaPanels: seq<(string, string)> := [
    ("Temperatura (DHT22)", PlaceholderPrefix + "TEMPERATURA_LINEA"),
    ("Índice de Calor (DHT22)", PlaceholderPrefix + "INDICE_CALOR_LINEA"),
    ("Humedad (DHT22)", PlaceholderPrefix + "HUMEDAD_LINEA"),
    ("Niveles de Temperatura (General)", PlaceholderPrefix + "TEMPERATURA_NIVELES_LINEA"),
    ("Mapa de Calor de Humedad", PlaceholderPrefix + "HUMEDAD_HEATMAP"),
    ("Mapa de Calor de Temperatura", PlaceholderPrefix + "TEMPERATURA_HEATMAP"),
    ("Intensidad de Luz UV (VEML6070)", PlaceholderPrefix + "UV_LINEA")
  ]

  /** As shipped, every panel is flagged as not configured. */
  lemma ShippedPanelsNotConfigured()
    ensures forall i :: 0 <= i < |GrafanaPanels| ==> ViewOf(GrafanaPanels[i].0, GrafanaPanels[i].1).NotConfigured?
  {
    forall i | 0 <= i < |GrafanaPanels|
      ensures !StartsWith(GrafanaPanels[i].1, "http")
    {
      var url := GrafanaPanels[i].1;
      assert url[0] == 'U';
    }
  }
}
