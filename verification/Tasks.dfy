/** Tasks, their target columns, and the logical identity shared by all runs of a task. */
module Tasks {
  import opened Decimals

  /** The identity columns of a run: owner, task type, entity type and entity id. */
  datatype Target = Target(ownerId: int, taskType: string, entityType: string, entityId: int)

  /** `projectsV2` stands for a V2 illumination that persists its projection. */
  datatype Task =
    | Illuminate(captureId: int, owner: int, projectsV2: bool)
    | SearchIndex(captureId: int, owner: int)
    | Spark(sparkId: int, owner: int, captureIds: seq<int>)

  function TargetOf(task: Task): Target {
    match task
    case Illuminate(captureId, owner, _) => Target(owner, "illuminate", "capture", captureId)
    case SearchIndex(captureId, owner) => Target(owner, "search_index", "capture", captureId)
    case Spark(sparkId, owner, _) => Target(owner, "spark", "spark", sparkId)
  }

  /** What the submission entry points accept: a spark needs at least one capture. */
  predicate Submittable(task: Task) {
    task.Spark? ==> task.captureIds != []
  }

  function MakeLogicalId(t: Target): string {
    "u" + IntToString(t.ownerId) + "-" + t.taskType + "-" + t.entityType + IntToString(t.entityId)
  }

  function LogicalIdOf(task: Task): string {
    MakeLogicalId(TargetOf(task))
  }

  predicate IsNameChar(c: char) {
    'a' <= c <= 'z' || 'A' <= c <= 'Z' || c == '_'
  }

  predicate IsName(s: string) {
    forall i | 0 <= i < |s| :: IsNameChar(s[i])
  }

  predicate NamedTarget(t: Target) {
    IsName(t.taskType) && IsName(t.entityType)
  }

  /** Every task of the service uses letter-and-underscore type names. */
  lemma TargetsAreNamed(task: Task)
    ensures NamedTarget(TargetOf(task))
  {
  }

  /** The part of the id after the entity name separator. */
  function EntityPart(t: Target): string {
    t.entityType + IntToString(t.entityId)
  }

  lemma {:induction false} EntityPartsSplitAlike(t: Target, t': Target)
    requires NamedTarget(t) && NamedTarget(t') && EntityPart(t) == EntityPart(t')
    ensures t.entityType == t'.entityType && t.entityId == t'.entityId
  {
    var num, num' := IntToString(t.entityId), IntToString(t'.entityId);
    RunsSplitAlike(IsNameChar, t.entityType, num, t'.entityType, num');
    assert num + "" == num && num' + "" == num';
    PrintedIntsSplitAlike(t.entityId, "", t'.entityId, "");
  }

  lemma {:induction false} TypePartsSplitAlike(t: Target, t': Target, part: string, part': string)
    requires NamedTarget(t) && NamedTarget(t')
    requires t.taskType + ("-" + part) == t'.taskType + ("-" + part')
    ensures t.taskType == t'.taskType && part == part'
  {
    RunsSplitAlike(IsNameChar, t.taskType, "-" + part, t'.taskType, "-" + part');
    assert ("-" + part)[1..] == part && ("-" + part')[1..] == part';
  }

  lemma {:induction false} OwnerPartsSplitAlike(t: Target, t': Target, part: string, part': string)
    requires IntToString(t.ownerId) + ("-" + part) == IntToString(t'.ownerId) + ("-" + part')
    ensures t.ownerId == t'.ownerId && part == part'
  {
    PrintedIntsSplitAlike(t.ownerId, "-" + part, t'.ownerId, "-" + part');
    assert ("-" + part)[1..] == part && ("-" + part')[1..] == part';
  }

  lemma {:induction false} LogicalIdParts(t: Target)
    ensures MakeLogicalId(t)[1..] == IntToString(t.ownerId) + ("-" + (t.taskType + ("-" + EntityPart(t))))
  {
  }

  /** The logical id determines all four identity columns, for every owner and entity id, negative
      ones included. */
  lemma {:induction false} LogicalIdInjective(t: Target, t': Target)
    requires NamedTarget(t) && NamedTarget(t')
    requires MakeLogicalId(t) == MakeLogicalId(t')
    ensures t == t'
  {
    LogicalIdParts(t);
    LogicalIdParts(t');
    var part, part' := t.taskType + ("-" + EntityPart(t)), t'.taskType + ("-" + EntityPart(t'));
    OwnerPartsSplitAlike(t, t', part, part');
    TypePartsSplitAlike(t, t', EntityPart(t), EntityPart(t'));
    EntityPartsSplitAlike(t, t');
  }

  /** One kind of task, one owner and one entity. */
  predicate SameWork(a: Task, b: Task) {
    match (a, b)
    case (Illuminate(x, o, _), Illuminate(x', o', _)) => x == x' && o == o'
    case (SearchIndex(x, o), SearchIndex(x', o')) => x == x' && o == o'
    case (Spark(x, o, _), Spark(x', o', _)) => x == x' && o == o'
    case _ => false
  }

  lemma SameTargetIff(a: Task, b: Task)
    ensures TargetOf(a) == TargetOf(b) <==> SameWork(a, b)
  {
    assert |"illuminate"| == 10 && |"search_index"| == 12 && |"spark"| == 5;
  }

  lemma SameIdSameTarget(a: Task, b: Task)
    requires LogicalIdOf(a) == LogicalIdOf(b)
    ensures TargetOf(a) == TargetOf(b)
  {
    TargetsAreNamed(a);
    TargetsAreNamed(b);
    LogicalIdInjective(TargetOf(a), TargetOf(b));
  }

  /** Two tasks share a logical id exactly if they are of one kind, of one owner and about one entity, whatever
      else they carry. */
  lemma SameLogicalIdIff(a: Task, b: Task)
    ensures LogicalIdOf(a) == LogicalIdOf(b) <==> SameWork(a, b)
  {
    SameTargetIff(a, b);
    if LogicalIdOf(a) == LogicalIdOf(b) {
      SameIdSameTarget(a, b);
    }
  }

  /** The ids as the routes document them. */
  lemma DocumentedId(task: Task)
    ensures LogicalIdOf(task) ==
      match task
      case Illuminate(captureId, owner, _) => "u" + IntToString(owner) + "-illuminate-capture" + IntToString(captureId)
      case SearchIndex(captureId, owner) => "u" + IntToString(owner) + "-search_index-capture" + IntToString(captureId)
      case Spark(sparkId, owner, _) => "u" + IntToString(owner) + "-spark-spark" + IntToString(sparkId)
  {
    var owner := "u" + IntToString(TargetOf(task).ownerId);
    Joined(owner, "-", "illuminate", "-", "capture");
    Joined(owner, "-", "search_index", "-", "capture");
    Joined(owner, "-", "spark", "-", "spark");
    assert "-" + "illuminate" + "-" + "capture" == "-illuminate-capture";
    assert "-" + "search_index" + "-" + "capture" == "-search_index-capture";
    assert "-" + "spark" + "-" + "spark" == "-spark-spark";
  }

  lemma Joined(s: string, a: string, b: string, c: string, d: string)
    ensures s + a + b + c + d == s + (a + b + c + d)
  {
  }
}
