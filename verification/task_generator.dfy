/** The server's task generator: three fixed bootstrap tasks followed by four
    tasks chosen by template key, with ids "1".."7" in position order. */
module TaskGenerator {
  import opened Wrappers
  import opened Types
  import Decimal

  /** A freshly generated task: pending, no parent, no subtasks. */
  function NewTask(id: string, description: string, assignedTo: string, priority: Priority, submodule: string): Task {
    Task(id, description, assignedTo, Pending, priority, submodule, None, None)
  }

  const CommonTasks: seq<Task> := [
    NewTask("1", "Set up project structure", "Developer", High, "Setup"),
    NewTask("2", "Create README.md", "Developer", Medium, "Setup"),
    NewTask("3", "Set up version control", "Developer", High, "Setup")
  ]

  const ECommerceTasks: seq<Task> := [
    NewTask("4", "Design database schema", "Developer", High, "Database"),
    NewTask("5", "Implement user authentication", "Developer", High, "Backend"),
    NewTask("6", "Create product listing page", "Developer", Medium, "Frontend"),
    NewTask("7", "Implement shopping cart functionality", "Developer", High, "Frontend")
  ]

  const AiTasks: seq<Task> := [
    NewTask("4", "Set up machine learning environment", "Developer", High, "Setup"),
    NewTask("5", "Implement data preprocessing pipeline", "Developer", High, "Backend"),
    NewTask("6", "Develop model training script", "Developer", High, "Backend"),
    NewTask("7", "Create model evaluation metrics", "Developer", Medium, "Backend")
  ]

  const OtherTasks: seq<Task> := [
    NewTask("4", "Define project requirements", "Researcher", High, "Setup"),
    NewTask("5", "Create project timeline", "Developer", Medium, "Setup"),
    NewTask("6", "Set up basic frontend structure", "Developer", Medium, "Frontend"),
    NewTask("7", "Set up basic backend structure", "Developer", Medium, "Backend")
  ]

  /** The catalog lookup: a key missing from the catalog falls back to "other". */
  function TemplateTasks(template: string): (r: seq<Task>)
    ensures |r| == 4
    ensures template == "e-commerce" ==> r == ECommerceTasks
    ensures template == "ai" ==> r == AiTasks
    ensures template != "e-commerce" && template != "ai" ==> r == OtherTasks
    ensures forall i | 0 <= i < 4 :: r[i].id == Decimal.Decimal(i + 4)
  {
    if template == "e-commerce" then ECommerceTasks
    else if template == "ai" then AiTasks
    else OtherTasks
  }

  /** The generated list. `projectName` is accepted and not used. */
  function GenerateTasks(projectName: string, template: string): (r: seq<Task>)
    ensures |r| == 7
    ensures r[..3] == CommonTasks
    ensures r[3..] == TemplateTasks(template)
    ensures forall i | 0 <= i < |r| :: r[i].status == Pending
    ensures forall i | 0 <= i < |r| :: r[i].subtasks.None? && r[i].parentTaskId.None?
  {
    CommonTasks + TemplateTasks(template)
  }

  /** Every generated task's id is the decimal numeral of its 1-based position. */
  lemma GeneratedIdsArePositions(projectName: string, template: string)
    ensures var r := GenerateTasks(projectName, template);
      forall i | 0 <= i < |r| :: r[i].id == Decimal.Decimal(i + 1)
  {
  }

  /** Ids are distinct within one generated list. */
  lemma GeneratedIdsDistinct(projectName: string, template: string)
    ensures var r := GenerateTasks(projectName, template);
      forall i, j | 0 <= i < j < |r| :: r[i].id != r[j].id
  {
    var r := GenerateTasks(projectName, template);
    GeneratedIdsArePositions(projectName, template);
    forall i, j | 0 <= i < j < |r|
      ensures r[i].id != r[j].id
    {
      Decimal.DecimalInjective(i + 1, j + 1);
    }
  }

  /** For "ai", task "4" sets up the machine learning environment. */
  lemma AiScenario(projectName: string)
    ensures var r := GenerateTasks(projectName, "ai");
      && r[3].id == "4"
      && r[3].description == "Set up machine learning environment"
      && r[3].priority == High
      && r[3].submodule == "Setup"
  {
  }

  /** Any key other than "e-commerce" and "ai" yields the "other" list. */
  lemma UnknownTemplateFallsBack(projectName: string, template: string)
    requires template != "e-commerce" && template != "ai"
    ensures GenerateTasks(projectName, template) == GenerateTasks(projectName, "other")
  {
  }

  /** The project name has no influence on the result. */
  lemma NameIrrelevant(name1: string, name2: string, template: string)
    ensures GenerateTasks(name1, template) == GenerateTasks(name2, template)
  {
  }

  /** The three bootstrap tasks: Developer, Setup, priorities high, medium, high. */
  lemma CommonTasksShape(projectName: string, template: string)
    ensures var r := GenerateTasks(projectName, template);
      && (forall i | 0 <= i < 3 :: r[i].assignedTo == "Developer" && r[i].submodule == "Setup")
      && r[0].priority == High && r[1].priority == Medium && r[2].priority == High
      && r[0].description == "Set up project structure"
      && r[1].description == "Create README.md"
      && r[2].description == "Set up version control"
  {
  }

  /** For "e-commerce", task "4" is the database schema design, high, Database. */
  lemma ECommerceScenario(projectName: string)
    ensures var r := GenerateTasks(projectName, "e-commerce");
      && r[3].id == "4"
      && r[3].description == "Design database schema"
      && r[3].priority == High
      && r[3].submodule == "Database"
  {
  }
}
