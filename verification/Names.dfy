/** The names under which workflow identities are stored, and their unambiguous reading. */
module Names {
  import opened Basics

  const STEP: Text := "$step:"
  const KEYED_STEP: Text := "$step-keyed:"
  const SLEEP: Text := "$sleep:"
  const TASK_WAIT: Text := "$await-task:"

  const UUID_WIDTH: nat := 36
  const MAX_QUEUE_NAME: nat := 33

  /** The text form of a task id: any text of the fixed width. */
  type Uuid = s: Text | |s| == UUID_WIDTH witness "00000000-0000-0000-0000-000000000000"

  /** A durable identity within one logical task. */
  datatype Identity =
    | StepId(name: Text)
    | KeyedStepId(name: Text, key: Text)
    | SleepId(name: Text)
    | TaskWaitId(queue: Text, task: Uuid)

  // ---- Decimal numbers ----

  function Digit(d: nat): (ch: char)
    requires d < 10
    ensures '0' <= ch <= '9' && DigitValue(ch) == d
  {
    '0' + d as char
  }

  function DigitValue(ch: char): nat
    requires '0' <= ch <= '9'
  {
    ch as int - '0' as int
  }

  predicate AllDigits(s: Text) {
    forall i :: 0 <= i < |s| ==> '0' <= s[i] <= '9'
  }

  function Decimal(n: nat): (s: Text)
    ensures s != [] && AllDigits(s)
  {
    if n < 10 then [Digit(n)] else Decimal(n / 10) + [Digit(n % 10)]
  }

  function Number(s: Text): nat
    requires AllDigits(s)
  {
    if s == [] then 0 else Number(s[..|s| - 1]) * 10 + DigitValue(s[|s| - 1])
  }

  lemma {:induction false} NumberOfDecimal(n: nat)
    ensures Number(Decimal(n)) == n
  {
    if n < 10 {
      assert Number([Digit(n)]) == Number([Digit(n)][..0]) * 10 + DigitValue([Digit(n)][0]);
      assert [Digit(n)][..0] == [];
    } else {
      NumberOfDecimal(n / 10);
      var s := Decimal(n);
      assert s[..|s| - 1] == Decimal(n / 10);
    }
  }

  /** The first position of a character, or the length. */
  function IndexOf(s: Text, ch: char): (i: nat)
    ensures i <= |s| && (forall j :: 0 <= j < i ==> s[j] != ch) && (i < |s| ==> s[i] == ch)
  {
    if s == [] || s[0] == ch then 0 else 1 + IndexOf(s[1..], ch)
  }

  // ---- Printing ----

  /** Refuses blank names and names that do not fit behind their prefix. */
  function WorkflowName(prefix: Text, name: Text): Result<Text>
    requires |prefix| <= MAX_NAME_BYTES
  {
    if TrimsEmpty(name) || |name| > MAX_NAME_BYTES - |prefix| then Err(InvalidArgument) else Ok(prefix + name)
  }

  function KeyedWorkflowName(prefix: Text, name: Text, key: Text): Result<Text>
    requires |prefix| <= MAX_NAME_BYTES
  {
    var identity := Decimal(|name|) + ":" + name + key;
    if TrimsEmpty(name) || TrimsEmpty(key) || |identity| > MAX_NAME_BYTES - |prefix| then Err(InvalidArgument)
    else Ok(prefix + identity)
  }

  function TaskWaitName(queue: Text, task: Uuid): Text {
    TASK_WAIT + queue + ":" + task
  }

  function StorageName(id: Identity): Result<Text> {
    match id
    case StepId(name) => WorkflowName(STEP, name)
    case KeyedStepId(name, key) => KeyedWorkflowName(KEYED_STEP, name, key)
    case SleepId(name) => WorkflowName(SLEEP, name)
    case TaskWaitId(queue, task) => Ok(TaskWaitName(queue, task))
  }

  // ---- Reading ----

  function After(prefix: Text, s: Text): Option<Text> {
    if prefix <= s then Some(s[|prefix|..]) else None
  }

  /** A decimal length, a colon, that many bytes of name, and the rest is the key. */
  function ReadKeyed(s: Text): Option<Identity> {
    var i := IndexOf(s, ':');
    if i == |s| || !AllDigits(s[..i]) then None
    else
      var length, rest := Number(s[..i]), s[i + 1..];
      if length > |rest| then None else Some(KeyedStepId(rest[..length], rest[length..]))
  }

  /** The queue may contain colons: the task id is cut off by its width. */
  function ReadTaskWait(s: Text): Option<Identity> {
    if |s| < UUID_WIDTH + 1 || s[|s| - UUID_WIDTH - 1] != ':' then None
    else Some(TaskWaitId(s[..|s| - UUID_WIDTH - 1], s[|s| - UUID_WIDTH..]))
  }

  function ReadName(s: Text): Option<Identity> {
    if After(STEP, s).Some? then Some(StepId(After(STEP, s).value))
    else if After(KEYED_STEP, s).Some? then ReadKeyed(After(KEYED_STEP, s).value)
    else if After(SLEEP, s).Some? then Some(SleepId(After(SLEEP, s).value))
    else if After(TASK_WAIT, s).Some? then ReadTaskWait(After(TASK_WAIT, s).value)
    else None
  }

  lemma AfterPrefix(prefix: Text, s: Text)
    ensures After(prefix, prefix + s) == Some(s)
  {
    assert (prefix + s)[|prefix|..] == s;
  }

  lemma NotAfter(prefix: Text, other: Text, s: Text, i: nat)
    requires i < |prefix| && i < |other| && prefix[i] != other[i]
    ensures After(prefix, other + s) == None
  {
    assert (other + s)[i] == other[i];
  }

  /** No namespace is a prefix of another. */
  lemma NamespacesApart(s: Text)
    ensures After(STEP, KEYED_STEP + s) == After(STEP, SLEEP + s) == After(STEP, TASK_WAIT + s) == None
    ensures After(KEYED_STEP, SLEEP + s) == After(KEYED_STEP, TASK_WAIT + s) == After(SLEEP, TASK_WAIT + s) == None
  {
    NotAfter(STEP, KEYED_STEP, s, 5);
    NotAfter(STEP, SLEEP, s, 2);
    NotAfter(STEP, TASK_WAIT, s, 1);
    NotAfter(KEYED_STEP, SLEEP, s, 2);
    NotAfter(KEYED_STEP, TASK_WAIT, s, 1);
    NotAfter(SLEEP, TASK_WAIT, s, 1);
  }

  lemma IndexIs(digits: Text, rest: Text)
    requires AllDigits(digits)
    ensures IndexOf(digits + ":" + rest, ':') == |digits|
  {
    var s := digits + ":" + rest;
    assert s[|digits|] == ':';
    assert forall j :: 0 <= j < |digits| ==> s[j] == digits[j] && s[j] != ':';
  }

  lemma KeyedReadBack(name: Text, key: Text)
    ensures ReadKeyed(Decimal(|name|) + ":" + name + key) == Some(KeyedStepId(name, key))
  {
    hide Decimal, IndexOf, Number;
    var digits, rest := Decimal(|name|), name + key;
    var s := digits + ":" + rest;
    assert Decimal(|name|) + ":" + name + key == s;
    IndexIs(digits, rest);
    NumberOfDecimal(|name|);
    assert s[..|digits|] == digits && s[|digits| + 1..] == rest;
    assert rest[..|name|] == name && rest[|name|..] == key;
  }

  lemma TaskWaitReadBack(queue: Text, task: Uuid)
    ensures ReadTaskWait(queue + ":" + task) == Some(TaskWaitId(queue, task))
  {
    var s := queue + ":" + task;
    assert s[|s| - UUID_WIDTH - 1] == ':';
    assert s[..|s| - UUID_WIDTH - 1] == queue && s[|s| - UUID_WIDTH..] == task;
  }

  /** Every stored name is read back as the identity it stands for. */
  lemma ReadBack(id: Identity)
    requires StorageName(id).Ok?
    ensures ReadName(StorageName(id).value) == Some(id)
  {
    hide ReadKeyed, ReadTaskWait, After, Decimal, TrimsEmpty;
    match id
    case StepId(name) =>
      AfterPrefix(STEP, name);
    case KeyedStepId(name, key) =>
      var body := Decimal(|name|) + ":" + name + key;
      AfterPrefix(KEYED_STEP, body);
      NamespacesApart(body);
      KeyedReadBack(name, key);
    case SleepId(name) =>
      AfterPrefix(SLEEP, name);
      NamespacesApart(name);
    case TaskWaitId(queue, task) =>
      var body := queue + ":" + task;
      assert TaskWaitName(queue, task) == TASK_WAIT + body;
      AfterPrefix(TASK_WAIT, body);
      NamespacesApart(body);
      TaskWaitReadBack(queue, task);
  }

  /** Identities never share a stored name, across all four kinds and all byte strings. */
  lemma NamesInjective(a: Identity, b: Identity)
    requires StorageName(a).Ok? && StorageName(a) == StorageName(b)
    ensures a == b
  {
    ReadBack(a);
    ReadBack(b);
  }

  predicate ValidQueueName(queue: Text) {
    !TrimsEmpty(queue) && |queue| <= MAX_QUEUE_NAME
  }

  lemma NonBlankPrefix(prefix: Text, s: Text)
    requires prefix != [] && !IsSpace(prefix[0])
    ensures !Blank(prefix + s)
  {
    assert (prefix + s)[0] == prefix[0];
  }

  /** The database accepts every name that is built here; waits need a valid queue name for that. */
  lemma NamesValid(id: Identity)
    requires id.TaskWaitId? ==> ValidQueueName(id.queue)
    ensures StorageName(id).Ok? ==> ValidName(StorageName(id).value)
    ensures StorageName(id).Ok? <==>
      match id
      case StepId(name) => !TrimsEmpty(name) && |name| <= 1018
      case KeyedStepId(name, key) => !TrimsEmpty(name) && !TrimsEmpty(key) && |Decimal(|name|)| + |name| + |key| <= 1011
      case SleepId(name) => !TrimsEmpty(name) && |name| <= 1017
      case TaskWaitId(_, _) => true
  {
    hide Decimal, Blank, TrimsEmpty;
    match id
    case StepId(name) => NonBlankPrefix(STEP, name);
    case KeyedStepId(name, key) => NonBlankPrefix(KEYED_STEP, Decimal(|name|) + ":" + name + key);
    case SleepId(name) => NonBlankPrefix(SLEEP, name);
    case TaskWaitId(queue, task) =>
      assert TaskWaitName(queue, task) == TASK_WAIT + (queue + ":" + task);
      NonBlankPrefix(TASK_WAIT, queue + ":" + task);
  }
}
