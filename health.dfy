/** The health and configuration report endpoints. */
module Health {
  import opened Text
  import Settings

  /** `(key[:4] + "***") if key else ""` */
  function Mask(key: string): (m: string)
    ensures key == [] <==> m == []
    ensures key != [] ==> |m| == Min(4, |key|) + 3 && m[..|m| - 3] == key[..|m| - 3] && m[|m| - 3..] == "***"
  {
    if key != [] then Take(key, 4) + "***" else []
  }

  /** Two keys that share their first four characters get the same mask: nothing after
      the fourth character can be recovered from it. */
  lemma MaskDependsOnPrefixOnly(k1: string, k2: string)
    requires k1 != [] && k2 != []
    requires Take(k1, 4) == Take(k2, 4)
    ensures Mask(k1) == Mask(k2)
  {
  }

  /** A key of four characters or fewer is not hidden at all: the mask is the whole key
      followed by "***". */
  lemma ShortKeyShownWhole(key: string)
    requires 0 < |key| <= 4
    ensures Mask(key) == key + "***"
  {
  }

  datatype ConfigReport = ConfigReport(
    llmProvider: string,
    llmStreamingEnabled: bool,
    openaiModel: string,
    openaiApiKeyPresent: bool,
    openaiApiKeyMasked: string,
    openrouterBaseUrl: string,
    openrouterApiKeyPresent: bool,
    openrouterApiKeyMasked: string)

  /** `config()`: the settings with both keys masked and presence flags. */
  function Config(s: Settings.Settings): (r: ConfigReport)
    ensures r.openaiApiKeyPresent <==> s.openaiApiKey != []
    ensures r.openrouterApiKeyPresent <==> s.openrouterApiKey != []
    ensures r.openaiApiKeyPresent <==> r.openaiApiKeyMasked != []
    ensures r.openrouterApiKeyPresent <==> r.openrouterApiKeyMasked != []
    ensures |r.openaiApiKeyMasked| <= 7 && |r.openrouterApiKeyMasked| <= 7
    ensures r.openaiApiKeyMasked == Mask(s.openaiApiKey) && r.openrouterApiKeyMasked == Mask(s.openrouterApiKey)
  {
    ConfigReport(
      s.llmProvider, s.llmStreamingEnabled, s.openaiModel,
      s.openaiApiKey != [], Mask(s.openaiApiKey),
      s.openrouterBaseUrl,
      s.openrouterApiKey != [], Mask(s.openrouterApiKey))
  }

  datatype HealthReport = HealthReport(status: string, time: string, version: string)

  /** `healthz()`; the clock reading is a parameter. */
  function Healthz(now: string): (r: HealthReport)
    ensures r.status == "ok" && r.version == "0.1.0" && r.time == now
  {
    HealthReport("ok", now, "0.1.0")
  }
}
