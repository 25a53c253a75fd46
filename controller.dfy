/** The main window's settings: DPI, polling rate and the twelve button widgets, and
    the "Apply All Settings" summary. */
module Controller {
  import opened Text
  import opened Buttons

  /** The mouse has twelve programmable buttons. */
  const ButtonCount: nat := 12
  const DefaultDpi: int := 800
  const DefaultPollingRate: string := "1000Hz"

  /** Number of configured buttons, counting from the last one backwards. */
  function ConfiguredCount(configs: seq<ButtonConfig>): (n: nat)
    ensures n <= |configs|
  {
    if |configs| == 0 then 0
    else ConfiguredCount(configs[..|configs| - 1]) + (if IsConfigured(configs[|configs| - 1]) then 1 else 0)
  }

  /** The indices of the configured buttons. */
  ghost function ConfiguredIndices(configs: seq<ButtonConfig>): set<nat> {
    set i: nat | i < |configs| && IsConfigured(configs[i])
  }

  /** The count is the number of buttons whose configuration is not the default. */
  lemma {:induction false} ConfiguredCountIsCardinality(configs: seq<ButtonConfig>)
    ensures ConfiguredCount(configs) == |ConfiguredIndices(configs)|
    decreases |configs|
  {
    if |configs| > 0 {
      var last := |configs| - 1;
      var front := configs[..last];
      ConfiguredCountIsCardinality(front);
      if IsConfigured(configs[last]) {
        assert ConfiguredIndices(configs) == ConfiguredIndices(front) + {last};
      } else {
        assert ConfiguredIndices(configs) == ConfiguredIndices(front);
      }
    } else {
      assert ConfiguredIndices(configs) == {};
    }
  }

  /** No button is configured exactly when every button is Left Click with no parameter. */
  lemma {:induction false} ConfiguredCountZero(configs: seq<ButtonConfig>)
    ensures ConfiguredCount(configs) == 0 <==> forall i :: 0 <= i < |configs| ==> configs[i] == DefaultConfig
  {
    ConfiguredCountIsCardinality(configs);
    if ConfiguredCount(configs) == 0 {
      forall i | 0 <= i < |configs| ensures configs[i] == DefaultConfig {
        assert i !in ConfiguredIndices(configs);
      }
    } else {
      var i :| i in ConfiguredIndices(configs);
      assert configs[i] != DefaultConfig;
    }
  }

  /** The part of the status text that names the DPI and the polling rate. */
  function Applied(dpi: int, pollingRate: string): string {
    "Applied: DPI=" + IntToString(dpi) + ", Polling Rate=" + pollingRate
  }

  /** The status text of "Apply All Settings" for `configured` configured buttons: it
      always starts with the DPI and polling rate, and is longer than that exactly when
      some button is configured. */
  function Summary(dpi: int, pollingRate: string, configured: nat): (summary: string)
    ensures |Applied(dpi, pollingRate)| <= |summary|
    ensures summary[..|Applied(dpi, pollingRate)|] == Applied(dpi, pollingRate)
    ensures |summary| > |Applied(dpi, pollingRate)| <==> configured > 0
  {
    var applied := Applied(dpi, pollingRate);
    if configured > 0 then applied + ", " + IntToString(configured) + " buttons configured" else applied
  }

  /** Different counts give different summaries for the same DPI and polling rate. */
  lemma SummaryDeterminesCount(dpi: int, pollingRate: string, n1: nat, n2: nat)
    requires Summary(dpi, pollingRate, n1) == Summary(dpi, pollingRate, n2)
    ensures n1 == n2
  {
    var applied := Applied(dpi, pollingRate);
    var tail := " buttons configured";
    var s := Summary(dpi, pollingRate, n1);
    if n1 > 0 && n2 > 0 {
      var k := |applied| + 2;
      assert s == applied + ", " + IntToString(n1) + tail;
      assert s == applied + ", " + IntToString(n2) + tail;
      assert |IntToString(n1)| == |IntToString(n2)|;
      assert IntToString(n1) == s[k..|s| - |tail|] == IntToString(n2);
      IntToStringInjective(n1, n2);
    }
  }

  /** The example of a single remapped button: one configured button is reported. */
  lemma OneRemappedButton()
    ensures ConfiguredCount([ButtonConfig("Right Click", "")] + seq(ButtonCount - 1, _ => DefaultConfig)) == 1
  {
    var configs := [ButtonConfig("Right Click", "")] + seq(ButtonCount - 1, _ => DefaultConfig);
    ConfiguredCountIsCardinality(configs);
    assert ConfiguredIndices(configs) == {0};
  }

  class MouseController {
    /** The DPI slider's value. */
    var dpi: int
    /** The polling rate selector's text. */
    var pollingRate: string
    var buttons: seq<ButtonConfigWidget>

    /** Twelve distinct widgets, numbered by position. */
    ghost predicate Valid()
      reads this, buttons
    {
      && |buttons| == ButtonCount
      && (forall i, j :: 0 <= i < j < |buttons| ==> buttons[i] != buttons[j])
      && (forall i :: 0 <= i < |buttons| ==> buttons[i].buttonNumber == i)
    }

    /** The configuration of every button, in button order. */
    function Configs(): (configs: seq<ButtonConfig>)
      reads this, buttons
      ensures |configs| == |buttons|
      ensures forall i :: 0 <= i < |buttons| ==> configs[i] == buttons[i].GetConfig()
    {
      seq(|buttons|, i reads this, buttons requires 0 <= i < |buttons| => buttons[i].GetConfig())
    }

    /** Start-up state: 800 DPI, 1000Hz, twelve fresh widgets in the default configuration. */
    constructor ()
      ensures Valid()
      ensures dpi == DefaultDpi && pollingRate == DefaultPollingRate
      ensures Configs() == seq(ButtonCount, _ => DefaultConfig)
      ensures forall i :: 0 <= i < |buttons| ==> fresh(buttons[i])
    {
      var widgets: seq<ButtonConfigWidget> := [];
      var i := 0;
      while i < ButtonCount
        invariant 0 <= i <= ButtonCount && |widgets| == i
        invariant forall j :: 0 <= j < i ==> fresh(widgets[j])
        invariant forall j :: 0 <= j < i ==> widgets[j].buttonNumber == j && widgets[j].GetConfig() == DefaultConfig
        invariant forall j, k :: 0 <= j < k < i ==> widgets[j] != widgets[k]
      {
        var widget := new ButtonConfigWidget(i);
        widgets := widgets + [widget];
        i := i + 1;
      }
      dpi := DefaultDpi;
      pollingRate := DefaultPollingRate;
      buttons := widgets;
    }

    /** "Apply All Settings": counts the configured buttons and returns the summary shown
        in the status bar and the confirmation box. */
    method ApplyAllSettings() returns (summary: string, configured: nat)
      ensures configured == ConfiguredCount(Configs())
      ensures configured == |ConfiguredIndices(Configs())| && configured <= |buttons|
      ensures summary == Summary(dpi, pollingRate, configured)
    {
      configured := 0;
      var i := 0;
      while i < |buttons|
        invariant 0 <= i <= |buttons|
        invariant configured == ConfiguredCount(Configs()[..i])
      {
        var config := buttons[i].GetConfig();
        assert Configs()[..i + 1][..i] == Configs()[..i];
        if config.func != DefaultFunction || config.parameter != "" {
          configured := configured + 1;
        }
        i := i + 1;
      }
      assert Configs()[..i] == Configs();
      ConfiguredCountIsCardinality(Configs());
      summary := "Applied: DPI=" + IntToString(dpi) + ", Polling Rate=" + pollingRate;
      if configured > 0 {
        summary := summary + ", " + IntToString(configured) + " buttons configured";
      }
    }
  }
}
