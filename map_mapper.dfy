/**
 * `BloodhoundToMitreMapper` of scripts/mitre-bloodhound-map.py as a class over
 * the graph it writes to. Each `map_*` method sends its Cypher statements one
 * after another; each statement is one rule of `MapRules`, and sending it
 * merges that rule's edges into the database.
 */
module Mapper {
  import opened MapRules

  class BloodhoundToMitreMapper {
    /** The nodes and relationships of the database the driver is connected to. */
    var nodes: map<NodeId, GNode>
    var edges: set<GEdge>

    function State(): Graph
      reads this
    {
      Graph(nodes, edges)
    }

    /** Connects to a database holding `g`. */
    constructor (g: Graph)
      ensures State() == g
    {
      nodes := g.nodes;
      edges := g.edges;
    }

    /** `execute_cypher` on the statement of rule `r`: its MERGE adds the rule's
        edges, and nothing else changes. */
    method ExecuteRule(r: Rule)
      modifies this
      ensures State() == Apply(old(State()), r)
    {
      edges := edges + RuleEdges(State(), r);
    }

    method MapGroupsToMitreGroups()
      modifies this
      ensures State() == RunRules(old(State()), GroupRules)
    {
      ghost var g := State();
      ExecuteRule(GroupsToMitreGroups);
      RunOne(g, GroupsToMitreGroups);
    }

    method MapPrivilegesToMitreTechniques()
      modifies this
      ensures State() == RunRules(old(State()), PrivilegeRules)
    {
      ghost var g := State();
      ExecuteRule(GenericAllTechniques);
      ExecuteRule(WriteDaclTechniques);
      ExecuteRule(GenericWriteTechniques);
      RunThree(g, GenericAllTechniques, WriteDaclTechniques, GenericWriteTechniques);
    }

    method MapUsersToMitreTechniques()
      modifies this
      ensures State() == RunRules(old(State()), UserRules)
    {
      ghost var g := State();
      ExecuteRule(AdminMemberTechniques);
      ExecuteRule(DcSyncTechniques);
      ExecuteRule(UserSessionTechniques);
      RunThree(g, AdminMemberTechniques, DcSyncTechniques, UserSessionTechniques);
    }

    method MapComputersToMitreTechniques()
      modifies this
      ensures State() == RunRules(old(State()), ComputerRules)
    {
      ghost var g := State();
      ExecuteRule(DomainControllerTechniques);
      ExecuteRule(ComputerSessionTechniques);
      RunTwo(g, DomainControllerTechniques, ComputerSessionTechniques);
    }

    method MapSoftwareToMitreTechniques()
      modifies this
      ensures State() == RunRules(old(State()), SoftwareRules)
    {
      ghost var g := State();
      ExecuteRule(BloodHoundSoftware);
      ExecuteRule(MimikatzSoftware);
      ExecuteRule(ShellSoftware);
      RunThree(g, BloodHoundSoftware, MimikatzSoftware, ShellSoftware);
    }

    method MapAttackPathsToMitreTactics()
      modifies this
      ensures State() == RunRules(old(State()), PathTacticRules)
    {
      ghost var g := State();
      ExecuteRule(HighValuePathTactics);
      ExecuteRule(DcSyncTactics);
      RunTwo(g, HighValuePathTactics, DcSyncTactics);
    }

    method MapAttackPathsToMitreTechniques()
      modifies this
      ensures State() == RunRules(old(State()), PathTechniqueRules)
    {
      ghost var g := State();
      ExecuteRule(SessionPathTechniques);
      ExecuteRule(MembershipPathTechniques);
      RunTwo(g, SessionPathTechniques, MembershipPathTechniques);
    }

    method MapObjectsToMitreTactics()
      modifies this
      ensures State() == RunRules(old(State()), ObjectTacticRules)
    {
      ghost var g := State();
      ExecuteRule(AdminMemberTactics);
      ExecuteRule(ComputerSessionTactics);
      ExecuteRule(DomainControllerTactics);
      RunThree(g, AdminMemberTactics, ComputerSessionTactics, DomainControllerTactics);
    }

    method MapTopMitreTechniques()
      modifies this
      ensures State() == RunRules(old(State()), TopRules)
    {
      ghost var g := State();
      ExecuteRule(ComputerDiscovery);
      ExecuteRule(UserSessionScripting);
      ExecuteRule(ShellScripting);
      ExecuteRule(MimikatzPasswordStores);
      RunFour(g, ComputerDiscovery, UserSessionScripting, ShellScripting, MimikatzPasswordStores);
    }

    /** `run_all_mappings`: the nine groups of rules, in this order. */
    method RunAllMappings()
      modifies this
      ensures State() == RunRules(old(State()), AllRules)
    {
      ghost var g := State();
      MapGroupsToMitreGroups();
      MapPrivilegesToMitreTechniques();
      RunRulesConcat(g, GroupRules, PrivilegeRules);
      ghost var done := GroupRules + PrivilegeRules;
      MapUsersToMitreTechniques();
      RunRulesConcat(g, done, UserRules);
      done := done + UserRules;
      MapComputersToMitreTechniques();
      RunRulesConcat(g, done, ComputerRules);
      done := done + ComputerRules;
      MapSoftwareToMitreTechniques();
      RunRulesConcat(g, done, SoftwareRules);
      done := done + SoftwareRules;
      MapAttackPathsToMitreTactics();
      RunRulesConcat(g, done, PathTacticRules);
      done := done + PathTacticRules;
      MapAttackPathsToMitreTechniques();
      RunRulesConcat(g, done, PathTechniqueRules);
      done := done + PathTechniqueRules;
      MapObjectsToMitreTactics();
      RunRulesConcat(g, done, ObjectTacticRules);
      done := done + ObjectTacticRules;
      MapTopMitreTechniques();
      RunRulesConcat(g, done, TopRules);
      done := done + TopRules;
      assert done == AllRules;
    }
  }
}
