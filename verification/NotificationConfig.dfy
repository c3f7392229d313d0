/** Notification configurations (internal/notifications/config.go). The configuration's ID
    is the key under which it is stored, so it is not repeated in the value. */
module NotificationConfig {
  import opened Prelude
  import opened RunStatus

  const GENERIC := "generic"
  const SLACK := "slack"
  const GCP_PUBSUB := "gcppubsub"
  const EMAIL := "email"

  const TRIGGERS := {"run:created", "run:planning", "run:needs_attention", "run:applying", "run:completed", "run:errored"}

  datatype Config = Config(
    destination: string,
    enabled: bool,
    name: string,
    triggers: seq<string>,
    url: Option<string>,
    workspace: string)

  /** Dereferencing the URL of anything but an email configuration is safe. */
  predicate WellFormed(c: Config) { c.destination != EMAIL ==> c.url.Some? }

  predicate NotEmail(c: Config) { c.destination != EMAIL }

  predicate ValidTriggers(triggers: seq<string>) { forall t :: t in triggers ==> t in TRIGGERS }

  datatype CreateOptions = CreateOptions(
    destination: string,
    enabled: Option<bool>,
    name: Option<string>,
    triggers: seq<string>,
    url: Option<string>)

  /** `parses` stands for the URL parser. */
  function NewConfig(parses: string -> bool, workspace: string, opts: CreateOptions): Result<Config> {
    if opts.destination != GENERIC && opts.destination != EMAIL && opts.destination != SLACK && opts.destination != GCP_PUBSUB
      then Err("unsupported notification destination")
    else if opts.destination != EMAIL && opts.url.None? then Err("must specify url for this destination type")
    else if opts.url.Some? && !parses(opts.url.value) then Err("invalid url")
    else if !ValidTriggers(opts.triggers) then Err("invalid notification trigger")
    else if opts.enabled.None? then Err("missing enabled")
    else if opts.name.None? then Err("missing name")
    else if opts.name.value == "" then Err("name cannot be an empty string")
    else Ok(Config(opts.destination, opts.enabled.value, opts.name.value, opts.triggers, opts.url, workspace))
  }

  datatype UpdateOptions = UpdateOptions(
    enabled: Option<bool>,
    name: Option<string>,
    triggers: Option<seq<string>>,
    url: Option<string>)

  /** Fields are assigned as they are checked, so a rejected update may already have
      changed the name and the enabled flag. */
  function Update(c: Config, opts: UpdateOptions): (Config, Option<string>) {
    if opts.name == Some("") then (c, Some("name cannot be an empty string"))
    else
      var c1 := if opts.name.Some? then c.(name := opts.name.value) else c;
      var c2 := if opts.enabled.Some? then c1.(enabled := opts.enabled.value) else c1;
      if opts.triggers.Some? && !ValidTriggers(opts.triggers.value) then (c2, Some("invalid notification trigger"))
      else
        var c3 := if opts.triggers.Some? then c2.(triggers := opts.triggers.value) else c2;
        (if opts.url.Some? then c3.(url := opts.url) else c3, None)
  }

  /** A configuration is accepted exactly when its options are valid, and is as they say. */
  lemma NewConfigIff(parses: string -> bool, workspace: string, opts: CreateOptions)
    ensures NewConfig(parses, workspace, opts).Ok? <==>
            && (opts.destination == "generic" || opts.destination == "email" || opts.destination == "slack" || opts.destination == "gcppubsub")
            && (opts.destination == "email" || opts.url.Some?) && (opts.url.Some? ==> parses(opts.url.value))
            && (forall t :: t in opts.triggers ==>
                  || t == "run:created" || t == "run:planning" || t == "run:needs_attention"
                  || t == "run:applying" || t == "run:completed" || t == "run:errored")
            && opts.enabled.Some? && opts.name.Some? && opts.name.value != ""
    ensures NewConfig(parses, workspace, opts).Ok? ==>
              var c := NewConfig(parses, workspace, opts).value;
              && c.destination == opts.destination && Some(c.enabled) == opts.enabled && Some(c.name) == opts.name
              && c.triggers == opts.triggers && c.url == opts.url && c.workspace == workspace
  {
  }

  /** An update is accepted exactly when its name and triggers are valid. Every option given
      then takes effect; of a rejected one at most the name and the enabled flag do, and
      neither if it is the name that is invalid. */
  lemma UpdateIff(c: Config, opts: UpdateOptions)
    ensures Update(c, opts).1.None? <==> opts.name != Some("") && (opts.triggers.Some? ==> ValidTriggers(opts.triggers.value))
    ensures var (c', err) := Update(c, opts);
            && c'.destination == c.destination && c'.workspace == c.workspace
            && c'.name == (if opts.name.Some? && opts.name.value != "" then opts.name.value else c.name)
            && c'.enabled == (if opts.enabled.Some? && opts.name != Some("") then opts.enabled.value else c.enabled)
            && c'.triggers == (if opts.triggers.Some? && err.None? then opts.triggers.value else c.triggers)
            && c'.url == (if opts.url.Some? && err.None? then opts.url else c.url)
  {
  }

  lemma UpdateKeeps(c: Config, opts: UpdateOptions)
    requires WellFormed(c) && ValidTriggers(c.triggers) && c.name != ""
    ensures var c' := Update(c, opts).0;
            WellFormed(c') && ValidTriggers(c'.triggers) && c'.name != "" && c'.destination == c.destination && c'.workspace == c.workspace
  {
  }

  function Updates(c: Config, all: seq<UpdateOptions>): Config {
    if all == [] then c else Update(Updates(c, all[..|all| - 1]), all[|all| - 1]).0
  }

  /** What the cache relies on: a configuration has a URL unless it is for email, from its
      creation and through any number of updates, accepted or rejected, none of which can
      turn an email configuration into another kind or back. */
  lemma {:induction false} UrlSurvivesUpdates(parses: string -> bool, workspace: string, opts: CreateOptions, all: seq<UpdateOptions>)
    requires NewConfig(parses, workspace, opts).Ok?
    ensures var c := Updates(NewConfig(parses, workspace, opts).value, all);
            && WellFormed(c) && ValidTriggers(c.triggers) && c.name != ""
            && c.destination == opts.destination && c.workspace == workspace
  {
    if all != [] {
      UrlSurvivesUpdates(parses, workspace, opts, all[..|all| - 1]);
      UpdateKeeps(Updates(NewConfig(parses, workspace, opts).value, all[..|all| - 1]), all[|all| - 1]);
    }
  }

  /** matchTrigger: the trigger a run status stands for, if any. */
  function TriggerFor(status: string): (r: Option<string>)
    ensures r.Some? ==> r.value in TRIGGERS
    ensures r == Some("run:completed") || r == Some("run:errored") <==> Done(status)
    ensures Queued(status) ==> r == None
    ensures r == Some("run:created") <==> status == "pending"
    ensures r == Some("run:planning") <==> status == "planning"
    ensures r == Some("run:needs_attention") <==> status == "planned"
    ensures r == Some("run:applying") <==> status == "applying"
    ensures r == Some("run:errored") <==> status == "errored"
    ensures r == Some("run:completed") <==>
            || status == "applied" || status == "planned_and_finished" || status == "discarded"
            || status == "canceled" || status == "force_canceled"
  {
    match status
    case "pending" => Some("run:created")
    case "planning" => Some("run:planning")
    case "planned" => Some("run:needs_attention")
    case "applying" => Some("run:applying")
    case "errored" => Some("run:errored")
    case _ => if Done(status) then Some("run:completed") else None
  }

  /** A list of triggers asks for runs in a status, trigger by trigger. */
  predicate AsksFor(triggers: seq<string>, status: string) {
    || (status == "pending" && "run:created" in triggers)
    || (status == "planning" && "run:planning" in triggers)
    || (status == "planned" && "run:needs_attention" in triggers)
    || (status == "applying" && "run:applying" in triggers)
    || (status == "errored" && "run:errored" in triggers)
    || ((status == "applied" || status == "planned_and_finished" || status == "discarded" || status == "canceled"
         || status == "force_canceled") && "run:completed" in triggers)
  }

  /** The checks handleRunEvent makes before it looks for a client. */
  predicate Interested(c: Config, workspace: string, status: string) {
    && c.workspace == workspace && c.enabled && c.triggers != []
    && TriggerFor(status).Some? && TriggerFor(status).value in c.triggers
  }

  /** They come to: an enabled configuration of the workspace that asks for the status. */
  lemma InterestedIff(c: Config, workspace: string, status: string)
    ensures Interested(c, workspace, status) <==> c.workspace == workspace && c.enabled && AsksFor(c.triggers, status)
  {
  }
}
