/**
 * Fetching the secret document (gcp/secret_manager.go): the secret version defaults to
 * `latest`, the resource name is `projects/P/secrets/S/versions/V`, credentials come from the
 * key file alone, and the payload reaches the caller's buffer followed by one newline.
 */
module SecretManager {
  import opened Wrappers
  import opened Strings
  import opened Cli
  import opened Io

  const LatestVersion := "latest"
  const ClientErrorPrefix := "failed to create secretmanager client: "
  const AccessErrorPrefix := "failed to access secret version: "

  /** The version asked for: `latest` unless a non-blank version was given. */
  function SecretVersion(requested: string): (version: string)
    ensures IsBlank(requested) ==> version == LatestVersion
    ensures !IsBlank(requested) ==> version == requested
    ensures !IsBlank(version)
  {
    assert LatestVersion[0] == 'l';
    if IsBlank(requested) then LatestVersion else requested
  }

  /** The resource name of one version of one secret of one project. */
  function ResourceName(project: string, secret: string, version: string): (name: string)
    ensures |name| == |"projects/"| + |project| + |"/secrets/"| + |secret| + |"/versions/"| + |version|
  {
    "projects/" + project + "/secrets/" + secret + "/versions/" + version
  }

  /** Six slash-free segments joined by slashes split back into those six segments. */
  lemma {:induction false} SixSegments(a: string, b: string, c: string, d: string, e: string, f: string)
    requires '/' !in a && '/' !in b && '/' !in c && '/' !in d && '/' !in e && '/' !in f
    ensures Split(a + ['/'] + b + ['/'] + c + ['/'] + d + ['/'] + e + ['/'] + f, '/') == [a, b, c, d, e, f]
  {
    var t4 := e + ['/'] + f;
    var t3 := d + ['/'] + t4;
    var t2 := c + ['/'] + t3;
    var t1 := b + ['/'] + t2;
    calc {
      a + ['/'] + b + ['/'] + c + ['/'] + d + ['/'] + e + ['/'] + f;
      a + ['/'] + b + ['/'] + c + ['/'] + d + ['/'] + t4;
      a + ['/'] + b + ['/'] + c + ['/'] + t3;
      a + ['/'] + b + ['/'] + t2;
      a + ['/'] + t1;
    }
    calc {
      Split(a + ['/'] + t1, '/');
      { SplitAtSeparator(a, '/', t1); }
      [a] + Split(t1, '/');
      { SplitAtSeparator(b, '/', t2); }
      [a] + ([b] + Split(t2, '/'));
      { SplitAtSeparator(c, '/', t3); }
      [a] + ([b] + ([c] + Split(t3, '/')));
      { SplitAtSeparator(d, '/', t4); }
      [a] + ([b] + ([c] + ([d] + Split(t4, '/'))));
      { SplitAtSeparator(e, '/', f); }
      [a] + ([b] + ([c] + ([d] + ([e] + Split(f, '/')))));
      [a, b, c, d, e, f];
    }
  }

  /** When no component contains a slash, the resource name splits back into exactly its six segments. */
  lemma ResourceNameSegments(project: string, secret: string, version: string)
    requires '/' !in project && '/' !in secret && '/' !in version
    ensures Split(ResourceName(project, secret, version), '/')
         == ["projects", project, "secrets", secret, "versions", version]
  {
    assert "projects/" == "projects" + ['/'];
    assert "/secrets/" == ['/'] + "secrets" + ['/'];
    assert "/versions/" == ['/'] + "versions" + ['/'];
    assert ResourceName(project, secret, version)
        == "projects" + ['/'] + project + ['/'] + "secrets" + ['/'] + secret + ['/'] + "versions" + ['/'] + version;
    assert '/' !in "versions" by { assert "versions" == ['v','e','r','s','i','o','n','s']; }
    assert '/' !in "secrets" by { assert "secrets" == ['s','e','c','r','e','t','s']; }
    assert '/' !in "projects" by { assert "projects" == ['p','r','o','j','e','c','t','s']; }
    SixSegments("projects", project, "secrets", secret, "versions", version);
  }

  /** Distinct slash-free coordinates never share a resource name. */
  lemma ResourceNameInjective(p: string, s: string, v: string, p': string, s': string, v': string)
    requires '/' !in p && '/' !in s && '/' !in v
    requires '/' !in p' && '/' !in s' && '/' !in v'
    requires ResourceName(p, s, v) == ResourceName(p', s', v')
    ensures p == p' && s == s' && v == v'
  {
    ResourceNameSegments(p, s, v);
    ResourceNameSegments(p', s', v');
    var segments := Split(ResourceName(p, s, v), '/');
    assert segments[1] == p && segments[1] == p';
    assert segments[3] == s && segments[3] == s';
    assert segments[5] == v && segments[5] == v';
  }

  /** The resource name requested for these options. */
  function RequestName(o: Options): string {
    ResourceName(o.project, o.secretName, SecretVersion(o.secretVersion))
  }

  /** The access requests a fetch sends: none when the client cannot be created, otherwise one. */
  function FetchRequests(o: Options, env: Env): (names: seq<string>)
    ensures names == [] || names == [RequestName(o)]
    ensures names == [] <==> env.connect(o.keyFile).Some?
  {
    if env.connect(o.keyFile).Some? then [] else [RequestName(o)]
  }

  /** What a fetch delivers: the payload followed by one newline, or an error message. */
  function FetchResult(o: Options, env: Env): (r: Result<string, string>)
    ensures env.connect(o.keyFile).Some? ==>
              r == Failure(ClientErrorPrefix + env.connect(o.keyFile).value)
    ensures env.connect(o.keyFile).None? && env.access(RequestName(o)).Failure? ==>
              r == Failure(AccessErrorPrefix + env.access(RequestName(o)).error)
    ensures env.connect(o.keyFile).None? && env.access(RequestName(o)).Success? ==>
              r == Success(env.access(RequestName(o)).value + "\n")
    ensures r.Success? <==> env.connect(o.keyFile).None? && env.access(RequestName(o)).Success?
    ensures r.Success? ==> |r.value| > 0 && r.value[|r.value| - 1] == '\n'
  {
    match env.connect(o.keyFile)
    case Some(e) => Failure(ClientErrorPrefix + e)
    case None =>
      match env.access(RequestName(o))
      case Failure(e) => Failure(AccessErrorPrefix + e)
      case Success(payload) => Success(payload + "\n")
  }

  /** Credentials come from the key file only: the key value never changes what a fetch does. */
  lemma FetchIgnoresKeyValue(o: Options, keyValue: string, env: Env)
    ensures FetchResult(o.(keyValue := keyValue), env) == FetchResult(o, env)
    ensures FetchRequests(o.(keyValue := keyValue), env) == FetchRequests(o, env)
  {
  }

  /** A bytes.Buffer: everything written to it, in order. */
  class Buffer {
    var data: string

    constructor ()
      ensures data == []
    {
      data := [];
    }

    method Write(text: string)
      modifies this
      ensures data == old(data) + text
    {
      data := data + text;
    }
  }

  /** FetchSecretDocument: appends the fetched document to `buf`, recording the access request in `world`. */
  method FetchSecretDocument(o: Options, env: Env, world: World, buf: Buffer) returns (err: Option<string>)
    modifies world, buf
    ensures world.View() == old(world.View()).(requests := old(world.requests) + FetchRequests(o, env))
    ensures FetchResult(o, env).Success? ==>
              err == None && buf.data == old(buf.data) + FetchResult(o, env).value
    ensures FetchResult(o, env).Failure? ==>
              err == Some(FetchResult(o, env).error) && buf.data == old(buf.data)
  {
    // The client is built from the credentials file named by key-file.
    var clientErr := env.connect(o.keyFile);
    if clientErr.Some? {
      return Some(ClientErrorPrefix + clientErr.value);
    }

    var secretVersion := LatestVersion;
    if !IsBlank(o.secretVersion) {
      secretVersion := o.secretVersion;
    }
    var name := ResourceName(o.project, o.secretName, secretVersion);

    var result := world.AccessSecretVersion(name, env);
    if result.Failure? {
      return Some(AccessErrorPrefix + result.error);
    }

    buf.Write(result.value + "\n");
    return None;
  }
}
