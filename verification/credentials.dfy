/** The credential templater: which placeholder of an infrastructure
    manifest receives which credential, and the literal edit that puts it
    there. */
module Credentials {
  import opened Text

  /** Replace every occurrence of `placeholder` by `value`. */
  datatype Rule = Rule(placeholder: string, value: string)

  const AwsCredentials: string := "${AWS_B64ENCODED_CREDENTIALS}"
  const PacketApiKey: string := "${PACKET_API_KEY}"
  const GcpCredentials: string := "${GCP_B64ENCODED_CREDENTIALS}"
  const VsphereUsername: string := "${VSPHERE_USERNAME}"
  const VspherePassword: string := "${VSPHERE_PASSWORD}"

  /** The providers whose manifest takes the secret itself, and where. */
  const SecretPlaceholder: map<string, string> :=
    map["aws" := AwsCredentials, "packet" := PacketApiKey, "gcp" := GcpCredentials]

  /** A manifest placeholder `${NAME}`. */
  predicate IsPlaceholder(p: string) {
    |p| >= 3 && p[..2] == "${" && p[|p| - 1] == '}'
  }

  /** A character of the base64 alphabet (RFC 4648, section 4), padding included. */
  predicate Base64Char(c: char) {
    ('A' <= c <= 'Z') || ('a' <= c <= 'z') || ('0' <= c <= '9') || c == '+' || c == '/' || c == '='
  }

  /** A base64-encoded credential. */
  predicate IsBase64(v: string) {
    forall i | 0 <= i < |v| :: Base64Char(v[i])
  }

  /** The rules built for `provider` once a secret has been supplied: one
      rule carrying the secret for aws, packet and gcp; the username and
      password rules for vsphere when both are given; none otherwise. */
  function RulesFor(provider: string, secret: string, username: string, password: string): (rules: seq<Rule>)
    ensures provider in SecretPlaceholder ==> rules == [Rule(SecretPlaceholder[provider], secret)]
    ensures provider == "vsphere" && username != "" && password != "" ==>
              rules == [Rule(VsphereUsername, username), Rule(VspherePassword, password)]
    ensures rules == [] <==>
              provider !in SecretPlaceholder && (provider != "vsphere" || username == "" || password == "")
    ensures forall r | r in rules :: IsPlaceholder(r.placeholder) && r.value in {secret, username, password}
    ensures secret != "" ==> forall r | r in rules :: r.value != ""
  {
    if provider == "aws" then [Rule(AwsCredentials, secret)]
    else if provider == "packet" then [Rule(PacketApiKey, secret)]
    else if provider == "gcp" then [Rule(GcpCredentials, secret)]
    else if provider == "vsphere" then
      if username != "" && password != "" then
        [Rule(VsphereUsername, username), Rule(VspherePassword, password)]
      else []
    else []
  }

  /** The file content after a `s/…/…/g;s/…/…/g` edit: the rules are
      applied one after the other, each to the whole text. */
  function ApplyRules(text: string, rules: seq<Rule>): (edited: string)
    decreases |rules|
  {
    if rules == [] then text
    else ApplyRules(ReplaceAll(text, rules[0].placeholder, rules[0].value), rules[1..])
  }

  /** No rule, or no placeholder present: the manifest is left as downloaded. */
  lemma {:induction false} ApplyRulesAbsent(text: string, rules: seq<Rule>)
    requires forall r | r in rules :: !Occurs(r.placeholder, text)
    ensures ApplyRules(text, rules) == text
    decreases |rules|
  {
    if rules != [] {
      ReplaceAllAbsent(text, rules[0].placeholder, rules[0].value);
      ApplyRulesAbsent(text, rules[1..]);
    }
  }

  /** Values kept apart from `q` (Separated) never reintroduce `q`. */
  lemma {:induction false} ApplyRulesPreservesAbsence(text: string, rules: seq<Rule>, q: string)
    requires forall r | r in rules :: Separated(q, r.value)
    requires !Occurs(q, text)
    ensures !Occurs(q, ApplyRules(text, rules))
    decreases |rules|
  {
    if rules != [] {
      ReplaceAllPreservesAbsence(text, rules[0].placeholder, rules[0].value, q);
      ApplyRulesPreservesAbsence(ReplaceAll(text, rules[0].placeholder, rules[0].value), rules[1..], q);
    }
  }

  /** When every value is kept apart from every placeholder (Separated), the
      edit leaves no placeholder of any rule in the manifest. */
  lemma {:induction false} ApplyRulesResolves(text: string, rules: seq<Rule>)
    requires forall r, r' | r in rules && r' in rules :: Separated(r.placeholder, r'.value)
    ensures forall r | r in rules :: !Occurs(r.placeholder, ApplyRules(text, rules))
    decreases |rules|
  {
    if rules != [] {
      var first := rules[0];
      var next := ReplaceAll(text, first.placeholder, first.value);
      ReplaceAllRemoves(text, first.placeholder, first.value);
      ApplyRulesResolves(next, rules[1..]);
      ApplyRulesPreservesAbsence(next, rules[1..], first.placeholder);
      forall r | r in rules
        ensures !Occurs(r.placeholder, ApplyRules(text, rules))
      {
        if r != first {
          assert r in rules[1..];
        }
      }
    }
  }

  /** The credential edit of a manifest, when every value is kept apart
      from every placeholder: every placeholder it targets is gone
      afterwards, and for the one-secret providers the secret now occurs in
      the manifest if its placeholder did (SecretAtFirstPlaceholder says
      where). A manifest without any of the placeholders is left as it was. */
  lemma CredentialsInjected(provider: string, secret: string, username: string, password: string, manifest: string)
    requires secret != ""
    requires var rules := RulesFor(provider, secret, username, password);
             forall r, r' | r in rules && r' in rules :: Separated(r.placeholder, r'.value)
    ensures var rules := RulesFor(provider, secret, username, password);
            var edited := ApplyRules(manifest, rules);
            && (forall r | r in rules :: !Occurs(r.placeholder, edited))
            && (provider in SecretPlaceholder && Occurs(SecretPlaceholder[provider], manifest) ==>
                  Occurs(secret, edited))
            && ((forall r | r in rules :: !Occurs(r.placeholder, manifest)) ==> edited == manifest)
  {
    var rules := RulesFor(provider, secret, username, password);
    ApplyRulesResolves(manifest, rules);
    if provider in SecretPlaceholder {
      var p := SecretPlaceholder[provider];
      if Occurs(p, manifest) {
        ReplaceAllInserts(manifest, p, secret);
        assert ApplyRules(manifest, rules) == ReplaceAll(manifest, p, secret);
      }
    }
    if forall r | r in rules :: !Occurs(r.placeholder, manifest) {
      ApplyRulesAbsent(manifest, rules);
    }
  }

  /** For aws, packet and gcp the secret is written exactly where the first
      placeholder stood: the text before it is untouched, and the edit goes
      on with the rest of the manifest. */
  lemma SecretAtFirstPlaceholder(provider: string, secret: string, username: string, password: string,
                                 before: string, after: string)
    requires provider in SecretPlaceholder
    requires var p := SecretPlaceholder[provider];
             !Occurs(p, before + p[..|p| - 1])
    ensures var p := SecretPlaceholder[provider];
            ApplyRules(before + p + after, RulesFor(provider, secret, username, password))
              == before + secret + ReplaceAll(after, p, secret)
  {
    var p := SecretPlaceholder[provider];
    var manifest := before + p + after;
    assert ApplyRules(manifest, RulesFor(provider, secret, username, password)) == ReplaceAll(manifest, p, secret);
    ReplaceAllAtFirst(before, after, p, secret);
  }

  /** A base64 credential at least as long as a placeholder is kept apart
      from it: `$` and `}` are not base64 characters, and a text cannot occur
      in a shorter one. */
  lemma Base64Separated(p: string, v: string)
    requires IsPlaceholder(p) && IsBase64(v) && |v| >= |p|
    ensures Separated(p, v)
  {
    assert p[0] == p[..2][0] == '$';
    assert !Base64Char('$') && !Base64Char('}');
    if Occurs(v, p) {
      OccursLength(v, p);
      assert false;
    }
  }

  /** For aws, packet and gcp with a base64 secret no shorter than the
      provider's placeholder, the edit removes the placeholder and the
      secret occurs in the manifest if the placeholder did. */
  lemma Base64SecretInjected(provider: string, secret: string, manifest: string)
    requires provider in SecretPlaceholder
    requires IsBase64(secret) && |secret| >= |SecretPlaceholder[provider]|
    ensures var p := SecretPlaceholder[provider];
            var edited := ApplyRules(manifest, RulesFor(provider, secret, "", ""));
            && !Occurs(p, edited)
            && (Occurs(p, manifest) ==> Occurs(secret, edited))
  {
    var p := SecretPlaceholder[provider];
    var rules := RulesFor(provider, secret, "", "");
    assert rules == [Rule(p, secret)];
    assert IsPlaceholder(rules[0].placeholder);
    Base64Separated(p, secret);
    CredentialsInjected(provider, secret, "", "", manifest);
  }
}
