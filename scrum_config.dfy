/** scrum-eye's configuration types and the merge of the global file into a team file (internal/config). */
module ScrumConfig {

  datatype AzureDevOpsConfig = AzureDevOpsConfig(organization: string, token: string)

  datatype GlobalConfig = GlobalConfig(azureDevOps: AzureDevOpsConfig)

  datatype AzureDevOpsTeam = AzureDevOpsTeam(
    organisation: string, token: string, projectId: string, teamId: string, areaPath: string)

  datatype TeamConfig = TeamConfig(azureDevOps: AzureDevOpsTeam)

  /** merge: the team's organisation and token fall back to the global ones when empty. */
  function Merge(global: GlobalConfig, team: TeamConfig): (r: TeamConfig)
    ensures var t, m := team.azureDevOps, r.azureDevOps;
      && m.organisation == (if t.organisation == "" then global.azureDevOps.organization else t.organisation)
      && m.token == (if t.token == "" then global.azureDevOps.token else t.token)
      && m.projectId == t.projectId && m.teamId == t.teamId && m.areaPath == t.areaPath
  {
    var t := team.azureDevOps;
    var t := if t.organisation == "" then t.(organisation := global.azureDevOps.organization) else t;
    var t := if t.token == "" then t.(token := global.azureDevOps.token) else t;
    TeamConfig(t)
  }

  /** Merging a second time changes nothing. */
  lemma MergeIdempotent(global: GlobalConfig, team: TeamConfig)
    ensures Merge(global, Merge(global, team)) == Merge(global, team)
  {
  }

  /** After the merge a field is empty only if both the team and the global file leave it empty. */
  lemma MergeFillsFields(global: GlobalConfig, team: TeamConfig)
    ensures Merge(global, team).azureDevOps.organisation == ""
        <==> team.azureDevOps.organisation == "" && global.azureDevOps.organization == ""
    ensures Merge(global, team).azureDevOps.token == ""
        <==> team.azureDevOps.token == "" && global.azureDevOps.token == ""
  {
  }
}
