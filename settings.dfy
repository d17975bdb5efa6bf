/** system/commands/settings.go: `SettingsAutoConfigure`, a fixed sequence of "set if missing"
    writes into the settings store. A write happens only when the lookup of the name reports
    neither a value nor an error; the values are literals or are computed at the time of writing
    from the command's arguments, the environment, a random secret and the settings stored so far.
    Marshal and store errors are printed on the command's output and go no further. */
module SettingsAutoConfig {
  import opened Wrappers
  import Strs

  /** A setting value as this command writes it: a JSON string or a JSON boolean. */
  datatype SettingValue = StrValue(s: string) | BoolValue(b: bool)

  type Settings = map<string, SettingValue>

  /** What `set` receives: a plain value, or a `func() interface{}` that computes the value when
      it is called (reading the settings stored at that moment); `None` is its `nil`. */
  datatype Candidate = Fixed(v: SettingValue) | Computed(f: Settings -> Option<SettingValue>)

  /** The value `set` goes on to write, if any. */
  function Resolve(c: Candidate, current: Settings): Option<SettingValue> {
    match c
    case Fixed(v) => Some(v)
    case Computed(f) => f(current)
  }

  /** The settings service's failures: names whose lookup fails, names whose write fails, and
      the errors' text. */
  datatype Faults = Faults(getFails: set<string>, getError: string, setFails: set<string>, setError: string)

  /** The settings store's contents and the command's printed output, taken together. */
  datatype Outcome = Outcome(values: Settings, output: seq<string>)

  const MarshalFailed: string := "could not marshal setting value: "
  const StoreFailed: string := "could not store setting: "

  /** `service.DefaultIntSettings`: the stored settings and the ways its calls fail. */
  class SettingsStore {
    var values: Settings
    const faults: Faults

    constructor (values: Settings, faults: Faults)
      ensures this.values == values && this.faults == faults
    {
      this.values := values;
      this.faults := faults;
    }

    /** `Get(name, 0)`: an error for a name whose lookup fails, otherwise the stored value or nil. */
    method Get(name: string) returns (existing: Option<SettingValue>, err: Option<string>)
      ensures name in faults.getFails ==> existing.None? && err == Some(faults.getError)
      ensures name !in faults.getFails ==> err.None? && (existing.Some? <==> name in values)
      ensures name !in faults.getFails && name in values ==> existing == Some(values[name])
    {
      if name in faults.getFails {
        return None, Some(faults.getError);
      }
      if name in values {
        existing := Some(values[name]);
      } else {
        existing := None;
      }
      err := None;
    }

    /** `Set(v)`: stores the value under its name, or fails and stores nothing. */
    method Set(name: string, v: SettingValue) returns (err: Option<string>)
      modifies this
      ensures name in faults.setFails ==> err == Some(faults.setError) && values == old(values)
      ensures name !in faults.setFails ==> err.None? && values == old(values)[name := v]
    {
      if name in faults.setFails {
        return Some(faults.setError);
      }
      values := values[name := v];
      err := None;
    }
  }

  /** The Cobra command's output, as the list of texts printed on it. */
  class Console {
    var output: seq<string>

    constructor ()
      ensures output == []
    {
      output := [];
    }

    method Printf(msg: string)
      modifies this
      ensures output == old(output) + [msg]
    {
      output := output + [msg];
    }
  }

  /** A message `set` prints for a failure. */
  predicate IsErrorMessage(msg: string) {
    Strs.HasPrefix(msg, MarshalFailed) || Strs.HasPrefix(msg, StoreFailed)
  }

  /** The `set` closure's effect: a nil value writes nothing; a marshal error or a store error is
      printed and writes nothing; otherwise the value is stored under `name`. */
  function SetOutcome(st: Outcome, faults: Faults, marshal: SettingValue -> Option<string>,
                      name: string, c: Candidate): (r: Outcome)
    ensures Resolve(c, st.values).None? ==> r == st
    ensures r.values == st.values || r.values == st.values[name := Resolve(c, st.values).value]
    ensures r.output == st.output ||
      (r.values == st.values && |r.output| == |st.output| + 1 && st.output <= r.output &&
       IsErrorMessage(r.output[|st.output|]))
  {
    match Resolve(c, st.values)
    case None => st
    case Some(v) =>
      if marshal(v).Some? then st.(output := st.output + [MarshalFailed + marshal(v).value])
      else if name in faults.setFails then st.(output := st.output + [StoreFailed + faults.setError])
      else st.(values := st.values[name := v])
  }

  /** The `setIfMissing` closure's effect: `set`, but only when the lookup reports neither an
      error nor a value. */
  function SetIfMissingOutcome(st: Outcome, faults: Faults, marshal: SettingValue -> Option<string>,
                               name: string, c: Candidate): (r: Outcome)
    ensures name in st.values ==> r == st
    ensures name in faults.getFails ==> r == st
  {
    if name !in faults.getFails && name !in st.values then SetOutcome(st, faults, marshal, name, c) else st
  }

  /** The `set` closure, step by step as the source takes it. */
  method SetValue(store: SettingsStore, console: Console, marshal: SettingValue -> Option<string>,
                  name: string, c: Candidate)
    modifies store, console
    ensures Outcome(store.values, console.output) ==
      SetOutcome(old(Outcome(store.values, console.output)), store.faults, marshal, name, c)
  {
    var value: SettingValue;
    match c {
      case Fixed(v) =>
        value := v;
      case Computed(f) =>
        var computed := f(store.values);
        if computed.None? {
          return;
        }
        value := computed.value;
    }
    var marshalErr := marshal(value);
    if marshalErr.Some? {
      console.Printf(MarshalFailed + marshalErr.value);
      return;
    }
    var err := store.Set(name, value);
    if err.Some? {
      console.Printf(StoreFailed + err.value);
    }
  }

  /** The `setIfMissing` closure. */
  method SetIfMissing(store: SettingsStore, console: Console, marshal: SettingValue -> Option<string>,
                      name: string, c: Candidate)
    modifies store, console
    ensures Outcome(store.values, console.output) ==
      SetIfMissingOutcome(old(Outcome(store.values, console.output)), store.faults, marshal, name, c)
  {
    var existing, err := store.Get(name);
    if err.None? && existing.None? {
      SetValue(store, console, marshal, name, c);
    }
  }

  const RedirectUrlKey: string := "auth.external.redirect-url"
  const SessionSecretKey: string := "auth.external.session-store-secret"
  const SessionSecureKey: string := "auth.external.session-store-secure"
  const PasswordResetUrlKey: string := "auth.frontend.url.password-reset"
  const EmailConfirmationUrlKey: string := "auth.frontend.url.email-confirmation"
  const FrontendRedirectUrlKey: string := "auth.frontend.url.redirect"
  const FrontendBaseUrlKey: string := "auth.frontend.url.base"
  const FromAddressKey: string := "auth.mail.from-address"
  const FromNameKey: string := "auth.mail.from-name"
  const ExternalEnabledKey: string := "auth.external.enabled"
  const InternalEnabledKey: string := "auth.internal.enabled"
  const SignupEnabledKey: string := "auth.internal.signup.enabled"
  const SignupConfirmationKey: string := "auth.internal.signup-email-confirmation-required"
  const PasswordResetEnabledKey: string := "auth.internal.password-reset.enabled"

  /** The callback path external providers redirect to; `%s` stays in the stored value. */
  const CallbackPath: string := "/auth/external/%s/callback"

  const DefaultFromAddress: string := "change-me@example.tld"
  const DefaultFromName: string := "Corteza Team"

  /** What the frontend URL settings append to the frontend URL. */
  const PasswordResetSuffix: string := "/auth/reset-password?token="
  const EmailConfirmationSuffix: string := "/auth/confirm-email?token="
  const FrontendRedirectSuffix: string := "/auth/"
  const FrontendBaseSuffix: string := "/"

  /** The system API's host when neither a URL nor a host variable is given. */
  const LocalApiUrl: string := "http://system.api.local.crust.tech"

  /** The external-authentication redirect URL: from the system API URL when one is given
      (with `https://` in front unless it starts with `http`), else from `LETSENCRYPT_HOST`
      over https, else from `VIRTUAL_HOST` over http, else the local default host. */
  function RedirectUrl(systemApiUrl: string, env: map<string, string>): (r: string)
    ensures Strs.HasPrefix(r, "http") && Strs.HasSuffix(r, CallbackPath)
  {
    Strs.IndexZeroIffPrefix(systemApiUrl, "http");
    if |systemApiUrl| > 0 then
      if Strs.Index(systemApiUrl, "http") != 0 then "https://" + systemApiUrl + CallbackPath
      else systemApiUrl + CallbackPath
    else if "LETSENCRYPT_HOST" in env then "https://" + env["LETSENCRYPT_HOST"] + CallbackPath
    else if "VIRTUAL_HOST" in env then "http://" + env["VIRTUAL_HOST"] + CallbackPath
    else LocalApiUrl + CallbackPath
  }

  /** With a system API URL, the redirect URL is that URL and the callback path, prefixed with
      `https://` exactly when the URL does not start with `http`. */
  lemma RedirectUrlFromApiUrl(systemApiUrl: string, env: map<string, string>)
    requires |systemApiUrl| > 0
    ensures Strs.HasPrefix(systemApiUrl, "http") ==> RedirectUrl(systemApiUrl, env) == systemApiUrl + CallbackPath
    ensures !Strs.HasPrefix(systemApiUrl, "http") ==>
      RedirectUrl(systemApiUrl, env) == "https://" + systemApiUrl + CallbackPath
    ensures Strs.Contains(RedirectUrl(systemApiUrl, env), "https://") <== !Strs.HasPrefix(systemApiUrl, "http")
  {
    Strs.IndexZeroIffPrefix(systemApiUrl, "http");
    var r := RedirectUrl(systemApiUrl, env);
    if !Strs.HasPrefix(systemApiUrl, "http") {
      assert Strs.OccursAt(r, "https://", 0);
    }
  }

  /** Without a system API URL the environment decides, `LETSENCRYPT_HOST` first; the result is
      https exactly when that variable is set. */
  lemma RedirectUrlFromEnvironment(env: map<string, string>)
    ensures "LETSENCRYPT_HOST" in env ==>
      RedirectUrl("", env) == "https://" + env["LETSENCRYPT_HOST"] + CallbackPath
    ensures "LETSENCRYPT_HOST" !in env && "VIRTUAL_HOST" in env ==>
      RedirectUrl("", env) == "http://" + env["VIRTUAL_HOST"] + CallbackPath
    ensures "LETSENCRYPT_HOST" !in env && "VIRTUAL_HOST" !in env ==>
      RedirectUrl("", env) == LocalApiUrl + CallbackPath
    ensures Strs.HasPrefix(RedirectUrl("", env), "https://") <==> "LETSENCRYPT_HOST" in env
  {
    var r := RedirectUrl("", env);
    if "LETSENCRYPT_HOST" !in env {
      assert r[4] == ':';
      assert "https://"[4] == 's';
    }
  }

  /** `GetGlobalString`: the stored string, or "" when the setting is missing or not a string
      (its error is discarded). */
  function GlobalString(current: Settings, name: string): string {
    if name in current && current[name].StrValue? then current[name].s else ""
  }

  /** The value functions handed to `setIfMissing`. */
  function RedirectCandidate(systemApiUrl: string, env: map<string, string>): Candidate {
    Computed((current: Settings) => Some(StrValue(RedirectUrl(systemApiUrl, env))))
  }

  function SecretCandidate(secret: string): Candidate {
    Computed((current: Settings) => Some(StrValue(secret)))
  }

  /** Secure sessions when the redirect URL stored by then uses https. */
  function SecureCandidate(): Candidate {
    Computed((current: Settings) => Some(BoolValue(Strs.Contains(GlobalString(current, RedirectUrlKey), "https://"))))
  }

  function SuffixCandidate(frontendUrl: string, suffix: string): Candidate {
    Computed((current: Settings) => Some(StrValue(frontendUrl + suffix)))
  }

  function Defaulted(given: string, default: string): string {
    if |given| > 0 then given else default
  }

  function DefaultedCandidate(given: string, default: string): Candidate {
    Computed((current: Settings) => Some(StrValue(Defaulted(given, default))))
  }

  type Step = (string, Candidate)

  /** The frontend URL settings, written only when a frontend URL is given. */
  function FrontendSteps(frontendUrl: string): seq<Step> {
    if |frontendUrl| > 0 then
      [(PasswordResetUrlKey, SuffixCandidate(frontendUrl, PasswordResetSuffix)),
       (EmailConfirmationUrlKey, SuffixCandidate(frontendUrl, EmailConfirmationSuffix)),
       (FrontendRedirectUrlKey, SuffixCandidate(frontendUrl, FrontendRedirectSuffix)),
       (FrontendBaseUrlKey, SuffixCandidate(frontendUrl, FrontendBaseSuffix))]
    else []
  }

  /** The `setIfMissing` calls before the frontend URLs. */
  function SessionSteps(systemApiUrl: string, env: map<string, string>, secret: string): seq<Step> {
    [(RedirectUrlKey, RedirectCandidate(systemApiUrl, env)),
     (SessionSecretKey, SecretCandidate(secret)),
     (SessionSecureKey, SecureCandidate())]
  }

  /** The `setIfMissing` calls after the frontend URLs. */
  function DefaultSteps(fromAddress: string, fromName: string): seq<Step> {
    [(FromAddressKey, DefaultedCandidate(fromAddress, DefaultFromAddress)),
     (FromNameKey, DefaultedCandidate(fromName, DefaultFromName)),
     (ExternalEnabledKey, Fixed(BoolValue(false))),
     (InternalEnabledKey, Fixed(BoolValue(true))),
     (SignupEnabledKey, Fixed(BoolValue(true))),
     (SignupConfirmationKey, Fixed(BoolValue(false))),
     (PasswordResetEnabledKey, Fixed(BoolValue(true)))]
  }

  /** The `setIfMissing` calls of `SettingsAutoConfigure`, in order. */
  function AutoConfigureSteps(systemApiUrl: string, frontendUrl: string, fromAddress: string, fromName: string,
                              env: map<string, string>, secret: string): seq<Step> {
    SessionSteps(systemApiUrl, env, secret) + FrontendSteps(frontendUrl) + DefaultSteps(fromAddress, fromName)
  }

  /** The effect of `setIfMissing` calls made one after another. */
  function RunSteps(st: Outcome, faults: Faults, marshal: SettingValue -> Option<string>, steps: seq<Step>): Outcome
    decreases |steps|
  {
    if steps == [] then st
    else
      var last := steps[|steps| - 1];
      SetIfMissingOutcome(RunSteps(st, faults, marshal, steps[..|steps| - 1]), faults, marshal, last.0, last.1)
  }

  lemma RunStepsSnoc(st: Outcome, faults: Faults, marshal: SettingValue -> Option<string>, steps: seq<Step>, x: Step)
    ensures RunSteps(st, faults, marshal, steps + [x]) ==
      SetIfMissingOutcome(RunSteps(st, faults, marshal, steps), faults, marshal, x.0, x.1)
  {
    assert (steps + [x])[..|steps|] == steps;
  }

  lemma {:induction false} RunStepsAppend(st: Outcome, faults: Faults, marshal: SettingValue -> Option<string>,
                                          a: seq<Step>, b: seq<Step>)
    ensures RunSteps(st, faults, marshal, a + b) == RunSteps(RunSteps(st, faults, marshal, a), faults, marshal, b)
    decreases |b|
  {
    if b == [] {
      assert a + b == a;
    } else {
      assert (a + b)[..|a + b| - 1] == a + b[..|b| - 1];
      RunStepsAppend(st, faults, marshal, a, b[..|b| - 1]);
    }
  }

  /** One `setIfMissing` call of the command, after the calls `done`. */
  method SetIfMissingStep(store: SettingsStore, console: Console, marshal: SettingValue -> Option<string>,
                          ghost start: Outcome, ghost done: seq<Step>, x: Step)
    returns (ghost done': seq<Step>)
    requires Outcome(store.values, console.output) == RunSteps(start, store.faults, marshal, done)
    modifies store, console
    ensures done' == done + [x]
    ensures Outcome(store.values, console.output) == RunSteps(start, store.faults, marshal, done')
  {
    SetIfMissing(store, console, marshal, x.0, x.1);
    RunStepsSnoc(start, store.faults, marshal, done, x);
    done' := done + [x];
  }

  /** `SettingsAutoConfigure`'s writes of the redirect URL and the session store. */
  method ConfigureSession(store: SettingsStore, console: Console, marshal: SettingValue -> Option<string>,
                          env: map<string, string>, secret: string, systemApiUrl: string)
    modifies store, console
    ensures Outcome(store.values, console.output) ==
      RunSteps(old(Outcome(store.values, console.output)), store.faults, marshal, SessionSteps(systemApiUrl, env, secret))
  {
    ghost var start := Outcome(store.values, console.output);
    ghost var done: seq<Step> := [];
    done := SetIfMissingStep(store, console, marshal, start, done, (RedirectUrlKey, RedirectCandidate(systemApiUrl, env)));
    done := SetIfMissingStep(store, console, marshal, start, done, (SessionSecretKey, SecretCandidate(secret)));
    done := SetIfMissingStep(store, console, marshal, start, done, (SessionSecureKey, SecureCandidate()));
    assert done == SessionSteps(systemApiUrl, env, secret);
  }

  /** `SettingsAutoConfigure`'s writes of the frontend URLs, when a frontend URL is given. */
  method ConfigureFrontendUrls(store: SettingsStore, console: Console, marshal: SettingValue -> Option<string>,
                               frontendUrl: string)
    modifies store, console
    ensures Outcome(store.values, console.output) ==
      RunSteps(old(Outcome(store.values, console.output)), store.faults, marshal, FrontendSteps(frontendUrl))
  {
    ghost var start := Outcome(store.values, console.output);
    ghost var done: seq<Step> := [];
    if |frontendUrl| > 0 {
      done := SetIfMissingStep(store, console, marshal, start, done, (PasswordResetUrlKey, SuffixCandidate(frontendUrl, PasswordResetSuffix)));
      done := SetIfMissingStep(store, console, marshal, start, done, (EmailConfirmationUrlKey, SuffixCandidate(frontendUrl, EmailConfirmationSuffix)));
      done := SetIfMissingStep(store, console, marshal, start, done, (FrontendRedirectUrlKey, SuffixCandidate(frontendUrl, FrontendRedirectSuffix)));
      done := SetIfMissingStep(store, console, marshal, start, done, (FrontendBaseUrlKey, SuffixCandidate(frontendUrl, FrontendBaseSuffix)));
    }
    assert done == FrontendSteps(frontendUrl);
  }

  /** `SettingsAutoConfigure`'s writes of the mail sender and the authentication switches. */
  method ConfigureDefaults(store: SettingsStore, console: Console, marshal: SettingValue -> Option<string>,
                           fromAddress: string, fromName: string)
    modifies store, console
    ensures Outcome(store.values, console.output) ==
      RunSteps(old(Outcome(store.values, console.output)), store.faults, marshal, DefaultSteps(fromAddress, fromName))
  {
    ghost var start := Outcome(store.values, console.output);
    ghost var done: seq<Step> := [];
    done := SetIfMissingStep(store, console, marshal, start, done, (FromAddressKey, DefaultedCandidate(fromAddress, DefaultFromAddress)));
    done := SetIfMissingStep(store, console, marshal, start, done, (FromNameKey, DefaultedCandidate(fromName, DefaultFromName)));
    done := SetIfMissingStep(store, console, marshal, start, done, (ExternalEnabledKey, Fixed(BoolValue(false))));
    done := SetIfMissingStep(store, console, marshal, start, done, (InternalEnabledKey, Fixed(BoolValue(true))));
    done := SetIfMissingStep(store, console, marshal, start, done, (SignupEnabledKey, Fixed(BoolValue(true))));
    done := SetIfMissingStep(store, console, marshal, start, done, (SignupConfirmationKey, Fixed(BoolValue(false))));
    done := SetIfMissingStep(store, console, marshal, start, done, (PasswordResetEnabledKey, Fixed(BoolValue(true))));
    assert done == DefaultSteps(fromAddress, fromName);
  }

  /** `SettingsAutoConfigure`; `env` stands for `os.LookupEnv` and `secret` for
      `string(rand.Bytes(64))`. */
  method AutoConfigure(store: SettingsStore, console: Console, marshal: SettingValue -> Option<string>,
                       env: map<string, string>, secret: string,
                       systemApiUrl: string, frontendUrl: string, fromAddress: string, fromName: string)
    modifies store, console
    ensures Outcome(store.values, console.output) ==
      RunSteps(old(Outcome(store.values, console.output)), store.faults, marshal,
               AutoConfigureSteps(systemApiUrl, frontendUrl, fromAddress, fromName, env, secret))
  {
    ghost var start := Outcome(store.values, console.output);
    ConfigureSession(store, console, marshal, env, secret, systemApiUrl);
    ConfigureFrontendUrls(store, console, marshal, frontendUrl);
    ConfigureDefaults(store, console, marshal, fromAddress, fromName);
    RunStepsAppend(start, store.faults, marshal, SessionSteps(systemApiUrl, env, secret), FrontendSteps(frontendUrl));
    RunStepsAppend(start, store.faults, marshal, SessionSteps(systemApiUrl, env, secret) + FrontendSteps(frontendUrl),
                   DefaultSteps(fromAddress, fromName));
  }

  /** The names a sequence of steps writes to. */
  function Names(steps: seq<Step>): set<string> {
    set i | 0 <= i < |steps| :: steps[i].0
  }

  /** Over any run of `setIfMissing` calls: a setting that exists is never overwritten, only
      the names called can appear, and the output only gains error messages. */
  lemma {:induction false} RunStepsKeepsExisting(st: Outcome, faults: Faults, marshal: SettingValue -> Option<string>,
                                                 steps: seq<Step>)
    ensures var r := RunSteps(st, faults, marshal, steps);
      (forall k :: k in st.values ==> k in r.values && r.values[k] == st.values[k]) &&
      r.values.Keys <= st.values.Keys + Names(steps) &&
      st.output <= r.output && (forall i :: |st.output| <= i < |r.output| ==> IsErrorMessage(r.output[i]))
    decreases |steps|
  {
    if steps != [] {
      var init := steps[..|steps| - 1];
      RunStepsKeepsExisting(st, faults, marshal, init);
      assert Names(init) <= Names(steps) by {
        forall n | n in Names(init) ensures n in Names(steps) {
          var i :| 0 <= i < |init| && init[i].0 == n;
          assert steps[i].0 == n;
        }
      }
      assert steps[|steps| - 1].0 in Names(steps);
    }
  }

  lemma NamesAppend(a: seq<Step>, b: seq<Step>)
    ensures Names(a + b) == Names(a) + Names(b)
  {
    forall n | n in Names(a + b) ensures n in Names(a) + Names(b) {
      var i :| 0 <= i < |a + b| && (a + b)[i].0 == n;
      if i >= |a| {
        assert b[i - |a|].0 == n;
      }
    }
    forall n | n in Names(a) + Names(b) ensures n in Names(a + b) {
      if n in Names(a) {
        var i :| 0 <= i < |a| && a[i].0 == n;
        assert (a + b)[i].0 == n;
      } else {
        var i :| 0 <= i < |b| && b[i].0 == n;
        assert (a + b)[|a| + i].0 == n;
      }
    }
  }

  lemma FrontendNames(frontendUrl: string)
    ensures Names(FrontendSteps(frontendUrl)) ==
      if |frontendUrl| > 0 then FrontendUrlKeys() else {}
  {
    var s := FrontendSteps(frontendUrl);
    if |frontendUrl| > 0 {
      assert s[0].0 == PasswordResetUrlKey && s[1].0 == EmailConfirmationUrlKey;
      assert s[2].0 == FrontendRedirectUrlKey && s[3].0 == FrontendBaseUrlKey;
    }
  }

  lemma DefaultNames(fromAddress: string, fromName: string)
    ensures Names(DefaultSteps(fromAddress, fromName)) ==
      MailAndFlagKeys()
  {
    var s := DefaultSteps(fromAddress, fromName);
    assert s[0].0 == FromAddressKey && s[1].0 == FromNameKey && s[2].0 == ExternalEnabledKey;
    assert s[3].0 == InternalEnabledKey && s[4].0 == SignupEnabledKey;
    assert s[5].0 == SignupConfirmationKey && s[6].0 == PasswordResetEnabledKey;
  }

  /** A run of calls none of which names `k` leaves `k` as it was, present or absent. */
  lemma UntouchedName(st: Outcome, faults: Faults, marshal: SettingValue -> Option<string>, steps: seq<Step>, k: string)
    requires k !in Names(steps)
    ensures var r := RunSteps(st, faults, marshal, steps);
      (k in r.values <==> k in st.values) && (k in st.values ==> r.values[k] == st.values[k])
  {
    RunStepsKeepsExisting(st, faults, marshal, steps);
  }

  /** The secure flag's step, placed after the redirect URL's and followed by steps naming
      neither. */
  lemma SecureStepFollowsRedirect(st: Outcome, faults: Faults, marshal: SettingValue -> Option<string>,
                                  head: seq<Step>, rest: seq<Step>)
    requires SessionSecureKey !in st.values && SessionSecureKey !in faults.getFails && SessionSecureKey !in faults.setFails
    requires marshal(BoolValue(true)).None? && marshal(BoolValue(false)).None?
    requires SessionSecureKey !in Names(head)
    requires RedirectUrlKey !in Names(rest) && SessionSecureKey !in Names(rest)
    ensures var r := RunSteps(st, faults, marshal, head + [(SessionSecureKey, SecureCandidate())] + rest);
      SessionSecureKey in r.values &&
      r.values[SessionSecureKey] == BoolValue(Strs.Contains(GlobalString(r.values, RedirectUrlKey), "https://"))
  {
    var x := (SessionSecureKey, SecureCandidate());
    RunStepsAppend(st, faults, marshal, head + [x], rest);
    RunStepsSnoc(st, faults, marshal, head, x);
    UntouchedName(st, faults, marshal, head, SessionSecureKey);
    var mid := RunSteps(st, faults, marshal, head + [x]);
    UntouchedName(mid, faults, marshal, rest, RedirectUrlKey);
    UntouchedName(mid, faults, marshal, rest, SessionSecureKey);
  }

  /** The command's steps are the redirect URL's, the secret's, the secure flag's, and then
      the rest. */
  lemma AutoConfigureStepsShape(env: map<string, string>, secret: string,
                                systemApiUrl: string, frontendUrl: string, fromAddress: string, fromName: string)
    ensures AutoConfigureSteps(systemApiUrl, frontendUrl, fromAddress, fromName, env, secret) ==
      [(RedirectUrlKey, RedirectCandidate(systemApiUrl, env)), (SessionSecretKey, SecretCandidate(secret))] +
      [(SessionSecureKey, SecureCandidate())] + (FrontendSteps(frontendUrl) + DefaultSteps(fromAddress, fromName))
  {
  }

  /** The steps after the secure flag's name neither it nor the redirect URL. */
  lemma LaterStepsNames(frontendUrl: string, fromAddress: string, fromName: string)
    ensures var rest := FrontendSteps(frontendUrl) + DefaultSteps(fromAddress, fromName);
      RedirectUrlKey !in Names(rest) && SessionSecureKey !in Names(rest)
  {
    NamesAppend(FrontendSteps(frontendUrl), DefaultSteps(fromAddress, fromName));
    FrontendNames(frontendUrl);
    DefaultNames(fromAddress, fromName);
    LaterKeysApart();
  }

  /** Neither the redirect URL's key nor the secure flag's is a frontend URL, mail or flag key. */
  lemma LaterKeysApart()
    ensures RedirectUrlKey !in FrontendUrlKeys() + MailAndFlagKeys()
    ensures SessionSecureKey !in FrontendUrlKeys() + MailAndFlagKeys()
  {
    assert RedirectUrlKey[5] != FrontendRedirectUrlKey[5] && |RedirectUrlKey| == 26;
    assert |SessionSecureKey| == 34;
  }

  /** Whatever the store held before, `session-store-secure`, once written, records whether the
      redirect URL stored at the end of the command uses https. */
  lemma SecureFollowsStoredRedirect(st: Outcome, faults: Faults, marshal: SettingValue -> Option<string>,
                                    env: map<string, string>, secret: string,
                                    systemApiUrl: string, frontendUrl: string, fromAddress: string, fromName: string)
    requires SessionSecureKey !in st.values && SessionSecureKey !in faults.getFails && SessionSecureKey !in faults.setFails
    requires marshal(BoolValue(true)).None? && marshal(BoolValue(false)).None?
    ensures var r := RunSteps(st, faults, marshal, AutoConfigureSteps(systemApiUrl, frontendUrl, fromAddress, fromName, env, secret));
      SessionSecureKey in r.values &&
      r.values[SessionSecureKey] == BoolValue(Strs.Contains(GlobalString(r.values, RedirectUrlKey), "https://"))
  {
    AutoConfigureStepsShape(env, secret, systemApiUrl, frontendUrl, fromAddress, fromName);
    LaterStepsNames(frontendUrl, fromAddress, fromName);
    var head := [(RedirectUrlKey, RedirectCandidate(systemApiUrl, env)), (SessionSecretKey, SecretCandidate(secret))];
    assert head[0].0 == RedirectUrlKey && head[1].0 == SessionSecretKey;
    assert Names(head) == {RedirectUrlKey, SessionSecretKey};
    SecureStepFollowsRedirect(st, faults, marshal,
      [(RedirectUrlKey, RedirectCandidate(systemApiUrl, env)), (SessionSecretKey, SecretCandidate(secret))],
      FrontendSteps(frontendUrl) + DefaultSteps(fromAddress, fromName));
  }

  /** A settings service whose calls all succeed, and a marshaller that never fails. */
  ghost predicate CleanBackend(faults: Faults, marshal: SettingValue -> Option<string>) {
    faults.getFails == {} && faults.setFails == {} && forall v :: marshal(v).None?
  }

  /** The candidate writes `v` whatever is stored. */
  ghost predicate Yields(c: Candidate, v: SettingValue) {
    match c
    case Fixed(w) => w == v
    case Computed(f) => forall current :: f(current) == Some(v)
  }

  /** Every step writes its entry of `d`, whatever is stored. */
  ghost predicate AllYield(steps: seq<Step>, d: map<string, SettingValue>) {
    forall i | 0 <= i < |steps| :: steps[i].0 in d && Yields(steps[i].1, d[steps[i].0])
  }

  lemma AllYieldAppend(a: seq<Step>, b: seq<Step>, d: map<string, SettingValue>)
    requires AllYield(a, d) && AllYield(b, d)
    ensures AllYield(a + b, d)
  {
    forall i | 0 <= i < |a + b| ensures (a + b)[i].0 in d && Yields((a + b)[i].1, d[(a + b)[i].0]) {
      if i >= |a| {
        assert (a + b)[i] == b[i - |a|];
      }
    }
  }

  /** With a clean backend, steps whose values do not depend on the store add exactly the
      missing names, with their values, and print nothing. */
  lemma {:induction false} ConstantRun(st: Outcome, faults: Faults, marshal: SettingValue -> Option<string>,
                                       steps: seq<Step>, m: map<string, SettingValue>)
    requires CleanBackend(faults, marshal)
    requires AllYield(steps, m)
    ensures var r := RunSteps(st, faults, marshal, steps);
      r.output == st.output &&
      (forall k :: k in r.values <==> k in st.values || k in Names(steps)) &&
      (forall k | k in r.values :: k in st.values || k in m) &&
      (forall k | k in r.values :: r.values[k] == if k in st.values then st.values[k] else m[k])
    decreases |steps|
  {
    if steps != [] {
      var init := steps[..|steps| - 1];
      var last := steps[|steps| - 1];
      ConstantRun(st, faults, marshal, init, m);
      var mid := RunSteps(st, faults, marshal, init);
      assert Resolve(last.1, mid.values) == Some(m[last.0]);
      assert Names(steps) == Names(init) + {last.0} by {
        assert steps == init + [last];
        NamesAppend(init, [last]);
        assert Names([last]) == {last.0};
      }
    }
  }

  /** The values the command writes that do not depend on what is stored. */
  function DefaultValues(systemApiUrl: string, frontendUrl: string, fromAddress: string, fromName: string,
                         env: map<string, string>, secret: string): (m: map<string, SettingValue>)
  {
    map[RedirectUrlKey := StrValue(RedirectUrl(systemApiUrl, env)),
        SessionSecretKey := StrValue(secret),
        FromAddressKey := StrValue(Defaulted(fromAddress, DefaultFromAddress)),
        FromNameKey := StrValue(Defaulted(fromName, DefaultFromName)),
        ExternalEnabledKey := BoolValue(false),
        InternalEnabledKey := BoolValue(true),
        SignupEnabledKey := BoolValue(true),
        SignupConfirmationKey := BoolValue(false),
        PasswordResetEnabledKey := BoolValue(true)]
    + (if |frontendUrl| > 0 then
         map[PasswordResetUrlKey := StrValue(frontendUrl + PasswordResetSuffix),
             EmailConfirmationUrlKey := StrValue(frontendUrl + EmailConfirmationSuffix),
             FrontendRedirectUrlKey := StrValue(frontendUrl + FrontendRedirectSuffix),
             FrontendBaseUrlKey := StrValue(frontendUrl + FrontendBaseSuffix)]
       else map[])
  }

  /** Every step but the secure flag's writes its entry of `DefaultValues`. */
  lemma HeadYieldsDefaults(systemApiUrl: string, frontendUrl: string, fromAddress: string, fromName: string,
                           env: map<string, string>, secret: string)
    ensures var m := DefaultValues(systemApiUrl, frontendUrl, fromAddress, fromName, env, secret);
      var s := [(RedirectUrlKey, RedirectCandidate(systemApiUrl, env)), (SessionSecretKey, SecretCandidate(secret))];
      AllYield(s, m)
  {
    var m := DefaultValues(systemApiUrl, frontendUrl, fromAddress, fromName, env, secret);
    assert m[RedirectUrlKey] == StrValue(RedirectUrl(systemApiUrl, env));
    assert m[SessionSecretKey] == StrValue(secret);
  }

  lemma FrontendYieldsDefaults(systemApiUrl: string, frontendUrl: string, fromAddress: string, fromName: string,
                               env: map<string, string>, secret: string)
    ensures var m := DefaultValues(systemApiUrl, frontendUrl, fromAddress, fromName, env, secret);
      var s := FrontendSteps(frontendUrl);
      AllYield(s, m)
  {
    var m := DefaultValues(systemApiUrl, frontendUrl, fromAddress, fromName, env, secret);
    if |frontendUrl| > 0 {
      assert m[PasswordResetUrlKey] == StrValue(frontendUrl + PasswordResetSuffix);
      assert m[EmailConfirmationUrlKey] == StrValue(frontendUrl + EmailConfirmationSuffix);
      assert m[FrontendRedirectUrlKey] == StrValue(frontendUrl + FrontendRedirectSuffix);
      assert m[FrontendBaseUrlKey] == StrValue(frontendUrl + FrontendBaseSuffix);
    }
  }

  lemma DefaultStepsYieldDefaults(systemApiUrl: string, frontendUrl: string, fromAddress: string, fromName: string,
                                  env: map<string, string>, secret: string)
    ensures var m := DefaultValues(systemApiUrl, frontendUrl, fromAddress, fromName, env, secret);
      var s := DefaultSteps(fromAddress, fromName);
      AllYield(s, m)
  {
    var m := DefaultValues(systemApiUrl, frontendUrl, fromAddress, fromName, env, secret);
    assert m[FromAddressKey] == StrValue(Defaulted(fromAddress, DefaultFromAddress));
    assert m[FromNameKey] == StrValue(Defaulted(fromName, DefaultFromName));
    assert m[ExternalEnabledKey] == BoolValue(false);
    assert m[InternalEnabledKey] == BoolValue(true);
    assert m[SignupEnabledKey] == BoolValue(true);
    assert m[SignupConfirmationKey] == BoolValue(false);
    assert m[PasswordResetEnabledKey] == BoolValue(true);
  }

  /** With a clean backend the secure flag's step adds the flag when it is missing and changes
      nothing else. */
  lemma SecureStepOnCleanBackend(st: Outcome, faults: Faults, marshal: SettingValue -> Option<string>)
    requires CleanBackend(faults, marshal)
    ensures var r := SetIfMissingOutcome(st, faults, marshal, SessionSecureKey, SecureCandidate());
      r.output == st.output && r.values.Keys == st.values.Keys + {SessionSecureKey} &&
      forall k | k in st.values :: r.values[k] == st.values[k]
  {
  }

  /** `after` is `before` with the missing names among `names` added (taking their values from
      `d` where it has them), nothing else changed, and nothing printed. */
  ghost predicate Extends(before: Outcome, after: Outcome, names: set<string>, d: map<string, SettingValue>) {
    after.output == before.output &&
    after.values.Keys == before.values.Keys + names &&
    (forall k | k in before.values :: after.values[k] == before.values[k]) &&
    (forall k | k in after.values && k !in before.values && k in d :: after.values[k] == d[k])
  }

  lemma ExtendsTrans(a: Outcome, b: Outcome, c: Outcome, n1: set<string>, n2: set<string>, d: map<string, SettingValue>)
    requires Extends(a, b, n1, d) && Extends(b, c, n2, d)
    ensures Extends(a, c, n1 + n2, d)
  {
  }

  /** On a clean backend, a run of steps whose values do not depend on the store extends it. */
  lemma ConstantRunExtends(st: Outcome, faults: Faults, marshal: SettingValue -> Option<string>,
                           steps: seq<Step>, d: map<string, SettingValue>)
    requires CleanBackend(faults, marshal)
    requires AllYield(steps, d)
    ensures Extends(st, RunSteps(st, faults, marshal, steps), Names(steps), d)
  {
    ConstantRun(st, faults, marshal, steps, d);
  }

  /** The shape of the command's run on a clean backend, for any steps around the secure
      flag's whose values do not depend on the store. */
  lemma CleanRunAroundSecure(st: Outcome, faults: Faults, marshal: SettingValue -> Option<string>,
                             head: seq<Step>, rest: seq<Step>, d: map<string, SettingValue>)
    requires CleanBackend(faults, marshal)
    requires AllYield(head, d) && AllYield(rest, d)
    requires d.Keys <= Names(head) + Names(rest) && SessionSecureKey !in d
    ensures var r := RunSteps(st, faults, marshal, head + [(SessionSecureKey, SecureCandidate())] + rest);
      r.output == st.output &&
      r.values.Keys == st.values.Keys + d.Keys + {SessionSecureKey} &&
      forall k | k in d :: r.values[k] == if k in st.values then st.values[k] else d[k]
  {
    var x := (SessionSecureKey, SecureCandidate());
    var r := RunSteps(st, faults, marshal, head + [x] + rest);
    var n := Names(head) + {SessionSecureKey} + Names(rest);
    assert Extends(st, r, n, d) by {
      RunStepsAppend(st, faults, marshal, head + [x], rest);
      RunStepsSnoc(st, faults, marshal, head, x);
      var s1 := RunSteps(st, faults, marshal, head);
      var s2 := SetIfMissingOutcome(s1, faults, marshal, SessionSecureKey, SecureCandidate());
      ConstantRunExtends(st, faults, marshal, head, d);
      assert Extends(s1, s2, {SessionSecureKey}, d) by {
        SecureStepOnCleanBackend(s1, faults, marshal);
      }
      ConstantRunExtends(s2, faults, marshal, rest, d);
      ExtendsTrans(st, s1, s2, Names(head), {SessionSecureKey}, d);
      ExtendsTrans(st, s2, r, Names(head) + {SessionSecureKey}, Names(rest), d);
    }
    assert n == d.Keys + {SessionSecureKey} by {
      AllYieldNames(head, d);
      AllYieldNames(rest, d);
    }
    ExtendsCoversDefaults(st, r, n, d);
  }

  lemma AllYieldNames(steps: seq<Step>, d: map<string, SettingValue>)
    requires AllYield(steps, d)
    ensures Names(steps) <= d.Keys
  {
  }

  /** Extending by names that include every key of `d` stores, for each such key, the old value
      or else `d`'s. */
  lemma ExtendsCoversDefaults(st: Outcome, r: Outcome, n: set<string>, d: map<string, SettingValue>)
    requires Extends(st, r, n, d) && d.Keys <= n
    ensures r.output == st.output && r.values.Keys == st.values.Keys + n
    ensures forall k | k in d :: k in r.values && r.values[k] == if k in st.values then st.values[k] else d[k]
  {
  }

  /** With a clean backend the command prints nothing; every setting it gives a value that does
      not depend on the store keeps what was stored or else takes that value, and the secure
      flag is the only other name added. */
  lemma MissingSettingsTakeDefaults(st: Outcome, faults: Faults, marshal: SettingValue -> Option<string>,
                                    env: map<string, string>, secret: string,
                                    systemApiUrl: string, frontendUrl: string, fromAddress: string, fromName: string)
    requires CleanBackend(faults, marshal)
    ensures var r := RunSteps(st, faults, marshal, AutoConfigureSteps(systemApiUrl, frontendUrl, fromAddress, fromName, env, secret));
      var d := DefaultValues(systemApiUrl, frontendUrl, fromAddress, fromName, env, secret);
      r.output == st.output &&
      r.values.Keys == st.values.Keys + d.Keys + {SessionSecureKey} &&
      forall k | k in d :: r.values[k] == if k in st.values then st.values[k] else d[k]
  {
    var d := DefaultValues(systemApiUrl, frontendUrl, fromAddress, fromName, env, secret);
    var head := [(RedirectUrlKey, RedirectCandidate(systemApiUrl, env)), (SessionSecretKey, SecretCandidate(secret))];
    AutoConfigureStepsShape(env, secret, systemApiUrl, frontendUrl, fromAddress, fromName);
    HeadYieldsDefaults(systemApiUrl, frontendUrl, fromAddress, fromName, env, secret);
    FrontendYieldsDefaults(systemApiUrl, frontendUrl, fromAddress, fromName, env, secret);
    DefaultStepsYieldDefaults(systemApiUrl, frontendUrl, fromAddress, fromName, env, secret);
    DefaultValuesKeys(systemApiUrl, frontendUrl, fromAddress, fromName, env, secret);
    SecureHasNoDefault(systemApiUrl, frontendUrl, fromAddress, fromName, env, secret);
    AllYieldAppend(FrontendSteps(frontendUrl), DefaultSteps(fromAddress, fromName), d);
    NamesAppend(FrontendSteps(frontendUrl), DefaultSteps(fromAddress, fromName));
    CleanRunAroundSecure(st, faults, marshal, head, FrontendSteps(frontendUrl) + DefaultSteps(fromAddress, fromName), d);
  }

  lemma DefaultValuesKeys(systemApiUrl: string, frontendUrl: string, fromAddress: string, fromName: string,
                          env: map<string, string>, secret: string)
    ensures var d := DefaultValues(systemApiUrl, frontendUrl, fromAddress, fromName, env, secret);
      var head := [(RedirectUrlKey, RedirectCandidate(systemApiUrl, env)), (SessionSecretKey, SecretCandidate(secret))];
      d.Keys <= Names(head) + Names(FrontendSteps(frontendUrl)) + Names(DefaultSteps(fromAddress, fromName))
  {
    var head := [(RedirectUrlKey, RedirectCandidate(systemApiUrl, env)), (SessionSecretKey, SecretCandidate(secret))];
    assert head[0].0 == RedirectUrlKey && head[1].0 == SessionSecretKey;
    assert Names(head) == {RedirectUrlKey, SessionSecretKey};
    FrontendNames(frontendUrl);
    DefaultNames(fromAddress, fromName);
    DefaultValuesKeySet(systemApiUrl, frontendUrl, fromAddress, fromName, env, secret);
  }

  /** The keys `DefaultValues` has: the session's, the frontend URLs' when a frontend URL is
      given, and the mail and flag settings'. */
  function DefaultKeys(frontendUrl: string): set<string> {
    {RedirectUrlKey, SessionSecretKey} + (if |frontendUrl| > 0 then FrontendUrlKeys() else {}) + MailAndFlagKeys()
  }

  /** The four frontend URL settings, all under `auth.frontend.`. */
  function FrontendUrlKeys(): set<string> {
    {PasswordResetUrlKey, EmailConfirmationUrlKey, FrontendRedirectUrlKey, FrontendBaseUrlKey}
  }

  /** The mail sender and the authentication flags, under `auth.mail.` and `auth.internal.`
      except for `auth.external.enabled`. */
  function MailAndFlagKeys(): set<string> {
    {FromAddressKey, FromNameKey, ExternalEnabledKey, InternalEnabledKey, SignupEnabledKey,
     SignupConfirmationKey, PasswordResetEnabledKey}
  }

  lemma DefaultValuesKeySet(systemApiUrl: string, frontendUrl: string, fromAddress: string, fromName: string,
                            env: map<string, string>, secret: string)
    ensures DefaultValues(systemApiUrl, frontendUrl, fromAddress, fromName, env, secret).Keys == DefaultKeys(frontendUrl)
  {
  }

  /** The secure flag is the one setting whose value depends on the store. */
  lemma SecureHasNoDefault(systemApiUrl: string, frontendUrl: string, fromAddress: string, fromName: string,
                           env: map<string, string>, secret: string)
    ensures SessionSecureKey !in DefaultValues(systemApiUrl, frontendUrl, fromAddress, fromName, env, secret)
  {
    DefaultValuesKeySet(systemApiUrl, frontendUrl, fromAddress, fromName, env, secret);
    SecureKeyDiffers(frontendUrl);
  }

  /** `session-store-secure` is none of the other keys: it differs from `session-store-secret`
      in its 32nd character and from the rest in length. */
  lemma SecureKeyDiffers(frontendUrl: string)
    ensures SessionSecureKey !in DefaultKeys(frontendUrl)
  {
    assert SessionSecureKey[31] != SessionSecretKey[31];
    assert |SessionSecureKey| == 34;
  }

  /** Without a frontend URL the four frontend URL settings are left exactly as they were,
      present or absent. */
  lemma FrontendUrlsNeedFrontendUrl(st: Outcome, faults: Faults, marshal: SettingValue -> Option<string>,
                                    env: map<string, string>, secret: string,
                                    systemApiUrl: string, fromAddress: string, fromName: string, k: string)
    requires k in FrontendUrlKeys()
    ensures var r := RunSteps(st, faults, marshal, AutoConfigureSteps(systemApiUrl, "", fromAddress, fromName, env, secret));
      (k in r.values <==> k in st.values) && (k in st.values ==> r.values[k] == st.values[k])
  {
    var session := SessionSteps(systemApiUrl, env, secret);
    var ds := DefaultSteps(fromAddress, fromName);
    assert AutoConfigureSteps(systemApiUrl, "", fromAddress, fromName, env, secret) == session + ds;
    assert k !in Names(session + ds) by {
      assert session[0].0 == RedirectUrlKey && session[1].0 == SessionSecretKey && session[2].0 == SessionSecureKey;
      assert Names(session) == {RedirectUrlKey, SessionSecretKey, SessionSecureKey};
      NamesAppend(session, ds);
      DefaultNames(fromAddress, fromName);
      FrontendKeyApart(k);
    }
    UntouchedName(st, faults, marshal, session + ds, k);
  }

  /** A frontend URL key is none of the session, mail or flag keys: it is the only kind under
      `auth.frontend.`. */
  lemma FrontendKeyApart(k: string)
    requires k in FrontendUrlKeys()
    ensures k !in {RedirectUrlKey, SessionSecretKey, SessionSecureKey} + MailAndFlagKeys()
  {
    assert k[5] == 'f';
  }
}
