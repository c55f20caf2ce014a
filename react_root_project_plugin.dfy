/**
 * The root-project plugin: every subproject other than :app is made to evaluate after :app,
 * because the app's plugin configures namespaces and toolchains of the libraries.
 */
module ReactRootProjectPlugin {

  const AppPath: string := ":app"

  /** `project.evaluationDependsOn(dependsOn)`: `project` is evaluated after `dependsOn`. */
  datatype EvaluationEdge = EvaluationEdge(project: string, dependsOn: string)

  /** The edges added, or the unknown-project failure of `evaluationDependsOn` when :app does not exist. */
  datatype ApplyResult = Ordered(edges: set<EvaluationEdge>) | UnknownProject(path: string)

  /** Every edge points from a non-app project to :app. */
  ghost predicate StarOnApp(edges: set<EvaluationEdge>) {
    forall e :: e in edges ==> e.dependsOn == AppPath && e.project != AppPath
  }

  /** `apply` over the paths of `project.subprojects`. */
  method Apply(subprojects: seq<string>) returns (result: ApplyResult)
    ensures result.UnknownProject? <==> |subprojects| > 0 && AppPath !in subprojects
    ensures result.UnknownProject? ==> result.path == AppPath
    ensures result.Ordered? ==> forall e :: e in result.edges <==>
      e.dependsOn == AppPath && e.project in subprojects && e.project != AppPath
    ensures result.Ordered? ==> StarOnApp(result.edges)
  {
    var edges: set<EvaluationEdge> := {};
    for i := 0 to |subprojects|
      invariant AppPath !in subprojects ==> i == 0
      invariant forall e :: e in edges <==>
        e.dependsOn == AppPath && e.project in subprojects[..i] && e.project != AppPath
    {
      var path := subprojects[i];
      if path != AppPath {
        if AppPath !in subprojects {
          return UnknownProject(AppPath);
        }
        edges := edges + {EvaluationEdge(path, AppPath)};
      }
      assert subprojects[..i + 1] == subprojects[..i] + [path];
    }
    assert subprojects[..|subprojects|] == subprojects;
    result := Ordered(edges);
  }

  /** `chain` follows edges: each project in it depends on the next. */
  ghost predicate IsChain(edges: set<EvaluationEdge>, chain: seq<string>) {
    |chain| >= 2 && forall k :: 0 <= k < |chain| - 1 ==> EvaluationEdge(chain[k], chain[k + 1]) in edges
  }

  /**
   * A star on :app has no chain longer than one edge, and so no cycle: every chain is a
   * single library followed by :app.
   */
  lemma {:induction false} StarHasNoCycle(edges: set<EvaluationEdge>, chain: seq<string>)
    requires StarOnApp(edges) && IsChain(edges, chain)
    ensures |chain| == 2 && chain[0] != AppPath && chain[1] == AppPath
    ensures chain[0] != chain[|chain| - 1]
  {
    ChainStep(edges, chain, 0);
    if |chain| > 2 {
      ChainStep(edges, chain, 1);
      assert false;
    }
  }

  /** Each step of a chain on a star leaves a non-app project for :app. */
  lemma ChainStep(edges: set<EvaluationEdge>, chain: seq<string>, k: nat)
    requires StarOnApp(edges) && IsChain(edges, chain) && k < |chain| - 1
    ensures chain[k] != AppPath && chain[k + 1] == AppPath
  {
    assert EvaluationEdge(chain[k], chain[k + 1]) in edges;
  }
}
