/** The browser's key-value storage, as seen by the two state providers: a
    map from slot names to typed snapshots. Serialization is not modelled;
    a snapshot is stored and read back as the value itself. */
module Storage {
  import opened Types

  /** The value held in one slot. */
  datatype Stored = StoredProject(project: Project) | StoredAgents(agents: seq<Agent>)

  type Store = map<string, Stored>

  /** The slot mirroring the current project; absent when there is none. */
  const ProjectSlot: string := "currentProject"

  /** The slot mirroring the agent registry. */
  const AgentsSlot: string := "agents"

  /** `a` and `b` agree on every slot outside `slots`. */
  ghost predicate AgreeOutside(a: Store, b: Store, slots: set<string>) {
    forall k | k !in slots :: (k in a <==> k in b) && (k in a ==> a[k] == b[k])
  }
}
