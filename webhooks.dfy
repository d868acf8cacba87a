// Webhook configuration: the settings record and the joining of the base
// URL with the path configured for an event type.

module Webhooks {
  import opened Common

  datatype N8nConfiguration = N8nConfiguration(
    enabled: bool, baseUrl: string, apiKey: Option<string>, timeoutSeconds: int,
    webhooks: map<string, string>)

  /** The settings before anything is bound from configuration. */
  const Default := N8nConfiguration(false, "http://localhost:5678", None, 10, map[])

  /** The string with every trailing '/' removed. */
  function TrimEndSlash(s: string): (r: string)
    ensures |r| <= |s| && r == s[..|r|]
    ensures r == [] || r[|r| - 1] != '/'
    ensures forall i :: |r| <= i < |s| ==> s[i] == '/'
  {
    if s != [] && s[|s| - 1] == '/' then TrimEndSlash(s[..|s| - 1]) else s
  }

  /** The path with a leading '/' added when it has none. */
  function WithLeadingSlash(path: string): (r: string)
    ensures r != [] && r[0] == '/'
  {
    if path != [] && path[0] == '/' then path else "/" + path
  }

  /** The full URL for an event type, or None when no path is configured. */
  function GetWebhookUrl(config: N8nConfiguration, eventType: string): Option<string>
  {
    if eventType !in config.webhooks then None
    else Some(TrimEndSlash(config.baseUrl) + WithLeadingSlash(config.webhooks[eventType]))
  }

  /** The URL is the trimmed base followed by the path, which starts right
      after the base with a '/'; a path that already starts with '/' is
      kept whole, so a leading "//" survives. */
  lemma UrlShape(config: N8nConfiguration, eventType: string)
    requires eventType in config.webhooks
    ensures var url := GetWebhookUrl(config, eventType).value;
      var base := TrimEndSlash(config.baseUrl);
      var path := config.webhooks[eventType];
      |url| > |base| && url[..|base|] == base && url[|base|] == '/'
      && (path != [] && path[0] == '/' ==> url[|base|..] == path)
      && (path == [] || path[0] != '/' ==> url[|base| + 1..] == path)
  {
  }

  /** Trailing slashes on the base never change the URL. */
  lemma {:induction false} TrailingSlashesIgnored(base: string, extra: nat)
    ensures TrimEndSlash(base + Slashes(extra)) == TrimEndSlash(base)
  {
    if extra > 0 {
      assert (base + Slashes(extra))[..|base + Slashes(extra)| - 1] == base + Slashes(extra - 1);
      TrailingSlashesIgnored(base, extra - 1);
    } else {
      assert base + Slashes(extra) == base;
    }
  }

  function Slashes(n: nat): (r: string)
    ensures |r| == n && forall i :: 0 <= i < n ==> r[i] == '/'
  {
    if n == 0 then [] else Slashes(n - 1) + "/"
  }

  /** Configuring "x" or "/x" gives the same URL. */
  lemma LeadingSlashOptional(config: N8nConfiguration, eventType: string, x: string)
    requires x == [] || x[0] != '/'
    ensures GetWebhookUrl(config.(webhooks := config.webhooks[eventType := x]), eventType)
         == GetWebhookUrl(config.(webhooks := config.webhooks[eventType := "/" + x]), eventType)
  {
  }

  /** Adding slashes to the configured base leaves every URL unchanged. */
  lemma BaseSlashesIgnored(config: N8nConfiguration, eventType: string, extra: nat)
    ensures GetWebhookUrl(config.(baseUrl := config.baseUrl + Slashes(extra)), eventType)
         == GetWebhookUrl(config, eventType)
  {
    TrailingSlashesIgnored(config.baseUrl, extra);
  }

  /** Trimming twice is trimming once. */
  lemma TrimIdempotent(s: string)
    ensures TrimEndSlash(TrimEndSlash(s)) == TrimEndSlash(s)
  {
  }

  /** The defaults: disabled, local base URL, ten seconds, and no webhooks,
      so every lookup comes back empty. */
  lemma DefaultFacts(eventType: string)
    ensures !Default.enabled && Default.baseUrl == "http://localhost:5678" && Default.timeoutSeconds == 10
    ensures GetWebhookUrl(Default, eventType) == None
  {
  }

  lemma UrlExample()
    ensures GetWebhookUrl(N8nConfiguration(true, "http://n8n:5678/", None, 10, map["shipment.exception" := "webhook/x"]),
                          "shipment.exception")
         == Some("http://n8n:5678/webhook/x")
  {
    var b := "http://n8n:5678/";
    assert b[..|b| - 1] == "http://n8n:5678";
    assert TrimEndSlash(b) == "http://n8n:5678";
    assert WithLeadingSlash("webhook/x") == "/webhook/x";
    assert "http://n8n:5678" + "/webhook/x" == "http://n8n:5678/webhook/x";
  }
}
