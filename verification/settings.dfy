/** What the module reads once at import time (gcp_logging.py lines 12-36): the
    project, the request `META` key holding the client address, the log prefix,
    whether the inbound trace header is used, and the two log names derived from
    the prefix. Environment variables are a map; the Django setting is optional. */
module Settings {
  import opened Wrappers
  import opened Text

  type Env = map<string, string>

  /** `os.environ.get(key)`. */
  function Get(env: Env, key: string): Option<string>
  {
    if key in env then Some(env[key]) else None
  }

  /** Python truthiness of an optional string: present and not empty. */
  predicate Truthy(v: Option<string>)
  {
    v.Some? && v.value != ""
  }

  const ProjectVar := "GROUPED_LOGGING_GCP_PROJECT"
  const FallbackProjectVar := "GOOGLE_CLOUD_PROJECT"
  const RemoteIpVar := "GROUPED_LOGGING_REMOTE_IP_HEADER"
  const PrefixVar := "GROUPED_LOGGING_LOG_PREFIX"
  const DirectAddressKey := "REMOTE_ADDR"

  /** The project: the first variable if it is set at all (even to ""), else the
      second, else the empty string. */
  function Project(env: Env): (r: string)
    ensures ProjectVar in env ==> r == env[ProjectVar]
    ensures ProjectVar !in env ==> r == Get(env, FallbackProjectVar).Otherwise("")
  {
    Get(env, ProjectVar).Otherwise(Get(env, FallbackProjectVar).Otherwise(""))
  }

  /** One character of a header name as it appears in a `META` key. */
  function FoldChar(c: char): char
  {
    UpperChar(if c == '-' then '_' else c)
  }

  /** The `META` key under which Django files the request header `name`. */
  function HeaderKey(name: string): (r: string)
    ensures |r| == 5 + |name| && r[..5] == "HTTP_"
    ensures forall i :: 0 <= i < |name| ==> r[5 + i] == FoldChar(name[i])
  {
    "HTTP_" + Upper(ReplaceChar(name, '-', '_'))
  }

  /** The `META` key read for the client address: the configured header when the
      variable is set and non-empty, else the direct-connection address. */
  function RemoteIpKey(env: Env): (r: string)
    ensures !Truthy(Get(env, RemoteIpVar)) ==> r == DirectAddressKey
    ensures Truthy(Get(env, RemoteIpVar)) ==> r == HeaderKey(env[RemoteIpVar])
    ensures Truthy(Get(env, RemoteIpVar)) ==>
      && |r| == 5 + |env[RemoteIpVar]|
      && r[..5] == "HTTP_"
      && '-' !in r
      && forall i :: 0 <= i < |r| ==> !('a' <= r[i] <= 'z')
  {
    var v := Get(env, RemoteIpVar);
    if Truthy(v) then HeaderKey(v.value) else DirectAddressKey
  }

  /** Two header-name characters name the same thing: equal, both a dash or an
      underscore, or the same ASCII letter in either case. */
  predicate SameHeaderChar(x: char, y: char)
  {
    || x == y
    || ((x == '-' || x == '_') && (y == '-' || y == '_'))
    || ('a' <= x <= 'z' && y as int == x as int - 32)
    || ('a' <= y <= 'z' && x as int == y as int - 32)
  }

  predicate SameHeaderName(a: string, b: string)
  {
    |a| == |b| && forall i :: 0 <= i < |a| ==> SameHeaderChar(a[i], b[i])
  }

  lemma FoldCharIff(x: char, y: char)
    ensures FoldChar(x) == FoldChar(y) <==> SameHeaderChar(x, y)
  {
  }

  /** Two header names give the same key exactly when they fold character by
      character to the same text. */
  lemma HeaderKeyFold(a: string, b: string)
    ensures HeaderKey(a) == HeaderKey(b) <==>
      |a| == |b| && forall i :: 0 <= i < |a| ==> FoldChar(a[i]) == FoldChar(b[i])
  {
    var ka, kb := HeaderKey(a), HeaderKey(b);
    if |a| == |b| && forall i :: 0 <= i < |a| ==> FoldChar(a[i]) == FoldChar(b[i]) {
      forall j | 0 <= j < |ka|
        ensures ka[j] == kb[j]
      {
        if j < 5 {
          assert ka[j] == ka[..5][j] && kb[j] == kb[..5][j];
        } else {
          assert ka[j] == FoldChar(a[j - 5]);
        }
      }
    }
    if ka == kb {
      forall i | 0 <= i < |a|
        ensures FoldChar(a[i]) == FoldChar(b[i])
      {
        assert ka[5 + i] == kb[5 + i];
      }
    }
  }

  /** Two configured header names select the same `META` key exactly when they
      differ only in ASCII letter case and in dashes against underscores. */
  lemma HeaderKeyIff(a: string, b: string)
    ensures HeaderKey(a) == HeaderKey(b) <==> SameHeaderName(a, b)
  {
    HeaderKeyFold(a, b);
    if |a| == |b| {
      forall i | 0 <= i < |a|
        ensures FoldChar(a[i]) == FoldChar(b[i]) <==> SameHeaderChar(a[i], b[i])
      {
        FoldCharIff(a[i], b[i]);
      }
    }
  }

  /** `settings.GCP_LOG_USE_X_HTTP_CLOUD_CONTEXT or False`, False when unset: the
      header is trusted only when the setting exists and is true. */
  function UseCloudContext(setting: Option<bool>): (r: bool)
    ensures r <==> setting == Some(true)
  {
    setting.Otherwise(false)
  }

  const ParentSuffix := "request_log"
  const ChildSuffix := "application"

  /** The log name `suffix`, preceded by `prefix_` when a prefix is configured. */
  function LogName(prefix: Option<string>, suffix: string): string
  {
    if Truthy(prefix) then prefix.value + "_" + suffix else suffix
  }

  /** The parent stream exists only when `GCP_LOG_USE_X_HTTP_CLOUD_CONTEXT` is off. */
  function ParentLogName(prefix: Option<string>, useCloudContext: bool): (r: Option<string>)
    ensures r.Some? <==> !useCloudContext
  {
    if useCloudContext then None else Some(LogName(prefix, ParentSuffix))
  }

  function ChildLogName(prefix: Option<string>): string
  {
    LogName(prefix, ChildSuffix)
  }

  /** The two streams never share a name, and a stream name determines the
      configured prefix (an unset prefix and an empty one behave alike). */
  lemma {:induction false} LogNamesDistinct(p: Option<string>, q: Option<string>)
    ensures LogName(p, ParentSuffix) != LogName(q, ChildSuffix)
    ensures LogName(p, ChildSuffix) == LogName(q, ChildSuffix) <==>
      (Truthy(p) == Truthy(q) && (Truthy(p) ==> p.value == q.value))
  {
    var a, b := LogName(p, ParentSuffix), LogName(q, ChildSuffix);
    // Both names end in eleven characters that differ in their first one.
    assert a[|a| - 11] == 'r' by {
      if Truthy(p) { assert a[|a| - 11] == (p.value + "_" + ParentSuffix)[|p.value| + 1]; }
    }
    assert b[|b| - 11] == 'a' by {
      if Truthy(q) { assert b[|b| - 11] == (q.value + "_" + ChildSuffix)[|q.value| + 1]; }
    }
    var c := LogName(p, ChildSuffix);
    if c == b && Truthy(p) && Truthy(q) {
      assert |p.value| == |q.value|;
      assert p.value == c[..|p.value|];
      assert q.value == b[..|q.value|];
    }
  }

  /** Everything the module fixes at import time. */
  datatype Config = Config(
    project: string,
    remoteIpKey: string,
    useCloudContext: bool,
    parentLogName: Option<string>,
    childLogName: string)

  function Load(env: Env, setting: Option<bool>): (c: Config)
    ensures c.project == Project(env) && c.remoteIpKey == RemoteIpKey(env)
    ensures c.useCloudContext <==> setting == Some(true)
    ensures c.parentLogName == ParentLogName(Get(env, PrefixVar), c.useCloudContext)
    ensures c.childLogName == ChildLogName(Get(env, PrefixVar))
    ensures c.parentLogName.Some? <==> setting != Some(true)
    ensures c.parentLogName.Some? <==> !c.useCloudContext
    ensures c.parentLogName.Some? ==> c.parentLogName.value != c.childLogName
  {
    var prefix := Get(env, PrefixVar);
    var useCloudContext := UseCloudContext(setting);
    LogNamesDistinct(prefix, prefix);
    Config(Project(env), RemoteIpKey(env), useCloudContext,
           ParentLogName(prefix, useCloudContext), ChildLogName(prefix))
  }
}
