/**
 * The Kubernetes secrets generator script: where the secrets file goes for
 * a namespace, and the YAML text written to it. The project root (the
 * script's grandparent directory) is a parameter; writing the file is not
 * modelled.
 */
module GenSecrets {
  import opened Wrappers

  /** The Python exceptions the two functions can raise. */
  datatype PyError = UnboundLocalError(variable: string) | KeyError(key: string)

  /** os.path.join of two POSIX path components. */
  function PathJoin(a: string, b: string): string {
    if b != [] && b[0] == '/' then b
    else if a == [] || a[|a| - 1] == '/' then a + b
    else a + "/" + b
  }

  const FileName: string := "secrets.yaml"

  predicate IsDevNamespace(namespace: string) {
    namespace == "dev" || namespace == "development"
  }

  predicate IsProdNamespace(namespace: string) {
    namespace == "prod" || namespace == "production"
  }

  /** get_path: the secrets file of the namespace's directory; `dirname` is unbound for any other namespace. */
  function GetPath(projectRoot: string, namespace: string): Result<string, PyError> {
    var k8sPath := PathJoin(projectRoot, "k8s");
    var devPath := PathJoin(k8sPath, "development");
    var prodPath := PathJoin(k8sPath, "production");
    if IsDevNamespace(namespace) then Success(PathJoin(devPath, FileName))
    else if IsProdNamespace(namespace) then Success(PathJoin(prodPath, FileName))
    else Failure(UnboundLocalError("dirname"))
  }

  /** Joining a relative component to a non-empty path that does not end in "/" puts one "/" between them. */
  lemma JoinRelative(a: string, b: string)
    requires a != [] && a[|a| - 1] != '/'
    requires b != [] && b[0] != '/'
    ensures PathJoin(a, b) == a + "/" + b
    ensures PathJoin(a, b) != [] && PathJoin(a, b)[|PathJoin(a, b)| - 1] == b[|b| - 1]
  {
  }

  /** The secrets file under a sub-directory of k8s. */
  lemma {:induction false} SecretsPathUnder(projectRoot: string, sub: string)
    requires projectRoot != [] && projectRoot[|projectRoot| - 1] != '/'
    requires sub != [] && sub[0] != '/' && sub[|sub| - 1] != '/'
    ensures PathJoin(PathJoin(PathJoin(projectRoot, "k8s"), sub), FileName) == projectRoot + "/k8s/" + sub + "/secrets.yaml"
  {
    JoinRelative(projectRoot, "k8s");
    var k8s := PathJoin(projectRoot, "k8s");
    JoinRelative(k8s, sub);
    JoinRelative(PathJoin(k8s, sub), FileName);
    assert projectRoot + "/" + "k8s" + "/" == projectRoot + "/k8s/";
  }

  /**
   * "dev" and "development" both give <root>/k8s/development/secrets.yaml,
   * "prod" and "production" both give <root>/k8s/production/secrets.yaml, and
   * every other namespace fails.
   */
  lemma GetPathCases(projectRoot: string, namespace: string)
    requires projectRoot != [] && projectRoot[|projectRoot| - 1] != '/'
    ensures IsDevNamespace(namespace) ==>
      GetPath(projectRoot, namespace) == Success(projectRoot + "/k8s/" + "development" + "/secrets.yaml")
    ensures IsProdNamespace(namespace) ==>
      GetPath(projectRoot, namespace) == Success(projectRoot + "/k8s/" + "production" + "/secrets.yaml")
    ensures !IsDevNamespace(namespace) && !IsProdNamespace(namespace) ==>
      GetPath(projectRoot, namespace) == Failure(UnboundLocalError("dirname"))
  {
    if IsDevNamespace(namespace) {
      SecretsPathUnder(projectRoot, "development");
    } else if IsProdNamespace(namespace) {
      SecretsPathUnder(projectRoot, "production");
    }
  }

  /** Whatever the root, a path is produced exactly for the four known namespaces, and it ends in "/secrets.yaml". */
  lemma GetPathFileName(projectRoot: string, namespace: string)
    ensures GetPath(projectRoot, namespace).Success? <==> IsDevNamespace(namespace) || IsProdNamespace(namespace)
    ensures GetPath(projectRoot, namespace).Success? ==>
      var p := GetPath(projectRoot, namespace).value;
      |p| > |"/secrets.yaml"| && p[|p| - |"/secrets.yaml"|..] == "/secrets.yaml"
  {
    var k8s := PathJoin(projectRoot, "k8s");
    assert k8s != [] && k8s[|k8s| - 1] == 's';
    if IsDevNamespace(namespace) || IsProdNamespace(namespace) {
      var sub := if IsDevNamespace(namespace) then "development" else "production";
      JoinRelative(k8s, sub);
      var dir := PathJoin(k8s, sub);
      JoinRelative(dir, FileName);
      assert GetPath(projectRoot, namespace).value == dir + "/secrets.yaml";
    }
  }

  // ---------------------------------------------------------------------
  // gen_string

  /** The keyword arguments: each value as str() renders it. */
  type Kwargs = map<string, string>

  /** The lines joined by line breaks. */
  function JoinLines(lines: seq<string>): string
    requires lines != []
  {
    if |lines| == 1 then lines[0] else lines[0] + "\n" + JoinLines(lines[1..])
  }

  /** The lines of the Secret manifest, each indented by the four spaces of the source's own indentation. */
  function ManifestLines(namespace: string, secret: string): seq<string> {
    [ "    apiVersion: v1",
      "    kind: Secret",
      "    metadata:",
      "      name: keys",
      "      namespace: " + namespace,
      "    type: Opaque",
      "    data:",
      "      github_client_secret: " + secret,
      "    " ]
  }

  /**
   * gen_string: the Secret manifest. A missing namespace raises KeyError; a
   * missing client secret is rendered as None.
   */
  function GenString(kwargs: Kwargs): Result<string, PyError> {
    if "namespace" !in kwargs then Failure(KeyError("namespace"))
    else
      var secret := if "github_client_secret" in kwargs then kwargs["github_client_secret"] else "None";
      Success(JoinLines(ManifestLines(kwargs["namespace"], secret)))
  }

  /** str.split('\n'). */
  function Lines(s: string): (r: seq<string>)
    ensures |r| >= 1
  {
    if s == [] then [[]]
    else
      var rest := Lines(s[1..]);
      if s[0] == '\n' then [[]] + rest else [[s[0]] + rest[0]] + rest[1..]
  }

  lemma {:induction false} LinesNoBreak(a: string)
    requires '\n' !in a
    ensures Lines(a) == [a]
  {
    if a != [] {
      LinesNoBreak(a[1..]);
      assert [a[0]] + a[1..] == a;
    }
  }

  lemma {:induction false} LinesBreak(a: string, b: string)
    requires '\n' !in a
    ensures Lines(a + "\n" + b) == [a] + Lines(b)
  {
    if a == [] {
      assert a + "\n" + b == "\n" + b;
      assert ("\n" + b)[1..] == b;
    } else {
      var s := a + "\n" + b;
      assert s[1..] == a[1..] + "\n" + b;
      LinesBreak(a[1..], b);
      assert [a[0]] + a[1..] == a;
    }
  }

  /** Splitting joined lines gives them back, when none of them contains a break. */
  lemma {:induction false} LinesJoinLines(lines: seq<string>)
    requires lines != []
    requires forall i :: 0 <= i < |lines| ==> '\n' !in lines[i]
    ensures Lines(JoinLines(lines)) == lines
  {
    if |lines| == 1 {
      LinesNoBreak(lines[0]);
    } else {
      LinesJoinLines(lines[1..]);
      LinesBreak(lines[0], JoinLines(lines[1..]));
      assert [lines[0]] + lines[1..] == lines;
    }
  }

  /**
   * When neither value contains a line break, the text is exactly the nine
   * manifest lines: the namespace sits under metadata and the client secret
   * under data.
   */
  lemma GenStringLines(kwargs: Kwargs)
    requires "namespace" in kwargs && '\n' !in kwargs["namespace"]
    requires "github_client_secret" in kwargs ==> '\n' !in kwargs["github_client_secret"]
    ensures GenString(kwargs).Success?
    ensures var secret := if "github_client_secret" in kwargs then kwargs["github_client_secret"] else "None";
      var lines := Lines(GenString(kwargs).value);
      && |lines| == 9
      && lines[4] == "      namespace: " + kwargs["namespace"]
      && lines[7] == "      github_client_secret: " + secret
      && lines == ManifestLines(kwargs["namespace"], secret)
  {
    var secret := if "github_client_secret" in kwargs then kwargs["github_client_secret"] else "None";
    var ls := ManifestLines(kwargs["namespace"], secret);
    forall i | 0 <= i < |ls| ensures '\n' !in ls[i] {
      if i == 4 {
        assert ls[4] == "      namespace: " + kwargs["namespace"];
      } else if i == 7 {
        assert ls[7] == "      github_client_secret: " + secret;
      }
    }
    LinesJoinLines(ls);
  }

  /** A missing namespace is a KeyError; a missing client secret renders as the text None. */
  lemma GenStringMissingKeys(kwargs: Kwargs)
    ensures "namespace" !in kwargs <==> GenString(kwargs) == Failure(KeyError("namespace"))
    ensures "github_client_secret" !in kwargs ==>
      GenString(kwargs) == GenString(kwargs["github_client_secret" := "None"])
  {
  }
}
