/**
 * The MQSC command catalog: each administrative tool that is implemented by
 * running an MQSC command builds it from a fixed template, with the caller's
 * queue, channel or object name pasted in as given (no escaping, no
 * validation). `Parse` reads a command back; the round-trip lemma shows that
 * the template and the pasted name are both recoverable from the command.
 */
module Mqsc {
  import opened Wrappers

  datatype MqscOp =
    | ListQueues
    | CreateQueue(queue: string)
    | DeleteQueue(queue: string)
    | QueueDepth(queue: string)
    | ClearQueue(queue: string)
    | ListChannels
    | StartChannel(channel: string)
    | StopChannel(channel: string)
    | PingChannel(channel: string)
    | QueueStats(queue: string)
    | ChannelStatus(channel: string)
    | ListConnections
    | RefreshSecurity
    | DisplayAuth(objectName: string)

  /** The command text the catalog sends for an operation. */
  function Command(op: MqscOp): string
  {
    match op
    case ListQueues => "DISPLAY QUEUE(*) TYPE"
    case CreateQueue(q) => "DEFINE QLOCAL(" + q + ")"
    case DeleteQueue(q) => "DELETE QLOCAL(" + q + ")"
    case QueueDepth(q) => "DISPLAY QUEUE(" + q + ") CURDEPTH"
    case ClearQueue(q) => "CLEAR QLOCAL(" + q + ")"
    case ListChannels => "DISPLAY CHANNEL(*)"
    case StartChannel(c) => "START CHANNEL(" + c + ")"
    case StopChannel(c) => "STOP CHANNEL(" + c + ")"
    case PingChannel(c) => "PING CHANNEL(" + c + ")"
    case QueueStats(q) => "DISPLAY QUEUE(" + q + ") ALL"
    case ChannelStatus(c) => "DISPLAY CHSTATUS(" + c + ")"
    case ListConnections => "DISPLAY CONN(*)"
    case RefreshSecurity => "REFRESH SECURITY TYPE(CONNAUTH)"
    case DisplayAuth(o) => "DISPLAY AUTHREC OBJNAME(" + o + ")"
  }

  /** The object name an operation pastes into its command; `None` for the four fixed commands. */
  function ObjectName(op: MqscOp): Option<string>
  {
    match op
    case ListQueues => None
    case ListChannels => None
    case ListConnections => None
    case RefreshSecurity => None
    case CreateQueue(q) => Some(q)
    case DeleteQueue(q) => Some(q)
    case QueueDepth(q) => Some(q)
    case ClearQueue(q) => Some(q)
    case StartChannel(c) => Some(c)
    case StopChannel(c) => Some(c)
    case PingChannel(c) => Some(c)
    case QueueStats(q) => Some(q)
    case ChannelStatus(c) => Some(c)
    case DisplayAuth(o) => Some(o)
  }

  /** The text between `prefix` and `suffix` when `cmd` is framed by both. */
  function Between(cmd: string, prefix: string, suffix: string): (r: Option<string>)
    ensures r.Some? ==> cmd == prefix + r.value + suffix
  {
    if |prefix| + |suffix| <= |cmd| && cmd[..|prefix|] == prefix && cmd[|cmd| - |suffix|..] == suffix then
      var name := cmd[|prefix|..|cmd| - |suffix|];
      assert cmd == cmd[..|prefix|] + name + cmd[|cmd| - |suffix|..];
      Some(name)
    else None
  }

  /** Reads an MQSC command back into the catalog operation that produces it. */
  function Parse(cmd: string): (r: Option<MqscOp>)
    ensures r.Some? ==> Command(r.value) == cmd
  {
    if cmd == "DISPLAY QUEUE(*) TYPE" then Some(ListQueues)
    else if cmd == "DISPLAY CHANNEL(*)" then Some(ListChannels)
    else if cmd == "DISPLAY CONN(*)" then Some(ListConnections)
    else if cmd == "REFRESH SECURITY TYPE(CONNAUTH)" then Some(RefreshSecurity)
    else if Between(cmd, "DEFINE QLOCAL(", ")").Some? then Some(CreateQueue(Between(cmd, "DEFINE QLOCAL(", ")").value))
    else if Between(cmd, "DELETE QLOCAL(", ")").Some? then Some(DeleteQueue(Between(cmd, "DELETE QLOCAL(", ")").value))
    else if Between(cmd, "DISPLAY QUEUE(", ") CURDEPTH").Some? then Some(QueueDepth(Between(cmd, "DISPLAY QUEUE(", ") CURDEPTH").value))
    else if Between(cmd, "CLEAR QLOCAL(", ")").Some? then Some(ClearQueue(Between(cmd, "CLEAR QLOCAL(", ")").value))
    else if Between(cmd, "START CHANNEL(", ")").Some? then Some(StartChannel(Between(cmd, "START CHANNEL(", ")").value))
    else if Between(cmd, "STOP CHANNEL(", ")").Some? then Some(StopChannel(Between(cmd, "STOP CHANNEL(", ")").value))
    else if Between(cmd, "PING CHANNEL(", ")").Some? then Some(PingChannel(Between(cmd, "PING CHANNEL(", ")").value))
    else if Between(cmd, "DISPLAY QUEUE(", ") ALL").Some? then Some(QueueStats(Between(cmd, "DISPLAY QUEUE(", ") ALL").value))
    else if Between(cmd, "DISPLAY CHSTATUS(", ")").Some? then Some(ChannelStatus(Between(cmd, "DISPLAY CHSTATUS(", ")").value))
    else if Between(cmd, "DISPLAY AUTHREC OBJNAME(", ")").Some? then Some(DisplayAuth(Between(cmd, "DISPLAY AUTHREC OBJNAME(", ")").value))
    else None
  }

  /** A command framed by a template's prefix and suffix unwraps to the pasted name. */
  lemma BetweenFramed(prefix: string, name: string, suffix: string)
    ensures Between(prefix + name + suffix, prefix, suffix) == Some(name)
  {
    var cmd := prefix + name + suffix;
    assert cmd[..|prefix|] == prefix;
    assert cmd[|cmd| - |suffix|..] == suffix;
    assert cmd[|prefix|..|cmd| - |suffix|] == name;
  }

  /** A command whose character at `k` differs from a prefix's is not framed by it. */
  lemma PrefixDiffers(cmd: string, prefix: string, suffix: string, k: nat)
    requires k < |prefix| && k < |cmd| && cmd[k] != prefix[k]
    ensures Between(cmd, prefix, suffix).None?
  {
    if |prefix| <= |cmd| {
      assert cmd[..|prefix|][k] != prefix[k];
    }
  }

  /** A command whose last character differs from a suffix's is not framed by it. */
  lemma SuffixDiffers(cmd: string, prefix: string, suffix: string)
    requires |suffix| > 0 && |cmd| > 0 && cmd[|cmd| - 1] != suffix[|suffix| - 1]
    ensures Between(cmd, prefix, suffix).None?
  {
    if |suffix| <= |cmd| {
      assert cmd[|cmd| - |suffix|..][|suffix| - 1] != suffix[|suffix| - 1];
    }
  }

  /** A command whose character at `k` differs from a fixed command's is not that command. */
  lemma LiteralDiffers(cmd: string, lit: string, k: nat)
    requires k < |cmd| && k < |lit| && cmd[k] != lit[k]
    ensures cmd != lit
  {
  }

  lemma ParseCreateQueue(q: string)
    ensures Parse(Command(CreateQueue(q))) == Some(CreateQueue(q))
  {
    var cmd := Command(CreateQueue(q));
    assert cmd[0] == 'D' && cmd[1] == 'E';
    BetweenFramed("DEFINE QLOCAL(", q, ")");
  }

  lemma ParseDeleteQueue(q: string)
    ensures Parse(Command(DeleteQueue(q))) == Some(DeleteQueue(q))
  {
    var cmd := Command(DeleteQueue(q));
    assert cmd[0] == 'D' && cmd[1] == 'E' && cmd[2] == 'L';
    PrefixDiffers(cmd, "DEFINE QLOCAL(", ")", 2);
    BetweenFramed("DELETE QLOCAL(", q, ")");
  }

  lemma ParseQueueDepth(q: string)
    ensures Parse(Command(QueueDepth(q))) == Some(QueueDepth(q))
  {
    var cmd := Command(QueueDepth(q));
    assert cmd[1] == 'I' && cmd[8] == 'Q' && cmd[|cmd| - 1] == 'H';
    LiteralDiffers(cmd, "DISPLAY CHANNEL(*)", 8);
    LiteralDiffers(cmd, "DISPLAY CONN(*)", 8);
    PrefixDiffers(cmd, "DEFINE QLOCAL(", ")", 1);
    PrefixDiffers(cmd, "DELETE QLOCAL(", ")", 1);
    BetweenFramed("DISPLAY QUEUE(", q, ") CURDEPTH");
  }

  lemma ParseClearQueue(q: string)
    ensures Parse(Command(ClearQueue(q))) == Some(ClearQueue(q))
  {
    var cmd := Command(ClearQueue(q));
    assert cmd[0] == 'C';
    PrefixDiffers(cmd, "DEFINE QLOCAL(", ")", 0);
    PrefixDiffers(cmd, "DELETE QLOCAL(", ")", 0);
    PrefixDiffers(cmd, "DISPLAY QUEUE(", ") CURDEPTH", 0);
    BetweenFramed("CLEAR QLOCAL(", q, ")");
  }

  lemma ParseStartChannel(c: string)
    ensures Parse(Command(StartChannel(c))) == Some(StartChannel(c))
  {
    var cmd := Command(StartChannel(c));
    assert cmd[0] == 'S' && cmd[2] == 'A';
    PrefixDiffers(cmd, "DEFINE QLOCAL(", ")", 0);
    PrefixDiffers(cmd, "DELETE QLOCAL(", ")", 0);
    PrefixDiffers(cmd, "DISPLAY QUEUE(", ") CURDEPTH", 0);
    PrefixDiffers(cmd, "CLEAR QLOCAL(", ")", 0);
    BetweenFramed("START CHANNEL(", c, ")");
  }

  lemma ParseStopChannel(c: string)
    ensures Parse(Command(StopChannel(c))) == Some(StopChannel(c))
  {
    var cmd := Command(StopChannel(c));
    assert cmd[0] == 'S' && cmd[2] == 'O';
    PrefixDiffers(cmd, "DEFINE QLOCAL(", ")", 0);
    PrefixDiffers(cmd, "DELETE QLOCAL(", ")", 0);
    PrefixDiffers(cmd, "DISPLAY QUEUE(", ") CURDEPTH", 0);
    PrefixDiffers(cmd, "CLEAR QLOCAL(", ")", 0);
    PrefixDiffers(cmd, "START CHANNEL(", ")", 2);
    BetweenFramed("STOP CHANNEL(", c, ")");
  }

  lemma ParsePingChannel(c: string)
    ensures Parse(Command(PingChannel(c))) == Some(PingChannel(c))
  {
    var cmd := Command(PingChannel(c));
    assert cmd[0] == 'P';
    PrefixDiffers(cmd, "DEFINE QLOCAL(", ")", 0);
    PrefixDiffers(cmd, "DELETE QLOCAL(", ")", 0);
    PrefixDiffers(cmd, "DISPLAY QUEUE(", ") CURDEPTH", 0);
    PrefixDiffers(cmd, "CLEAR QLOCAL(", ")", 0);
    PrefixDiffers(cmd, "START CHANNEL(", ")", 0);
    PrefixDiffers(cmd, "STOP CHANNEL(", ")", 0);
    BetweenFramed("PING CHANNEL(", c, ")");
  }

  lemma ParseQueueStats(q: string)
    ensures Parse(Command(QueueStats(q))) == Some(QueueStats(q))
  {
    var cmd := Command(QueueStats(q));
    assert cmd[1] == 'I' && cmd[8] == 'Q' && cmd[|cmd| - 1] == 'L';
    LiteralDiffers(cmd, "DISPLAY CHANNEL(*)", 8);
    LiteralDiffers(cmd, "DISPLAY CONN(*)", 8);
    PrefixDiffers(cmd, "DEFINE QLOCAL(", ")", 1);
    PrefixDiffers(cmd, "DELETE QLOCAL(", ")", 1);
    SuffixDiffers(cmd, "DISPLAY QUEUE(", ") CURDEPTH");
    PrefixDiffers(cmd, "CLEAR QLOCAL(", ")", 0);
    PrefixDiffers(cmd, "START CHANNEL(", ")", 0);
    PrefixDiffers(cmd, "STOP CHANNEL(", ")", 0);
    PrefixDiffers(cmd, "PING CHANNEL(", ")", 0);
    BetweenFramed("DISPLAY QUEUE(", q, ") ALL");
  }

  lemma ParseChannelStatus(c: string)
    ensures Parse(Command(ChannelStatus(c))) == Some(ChannelStatus(c))
  {
    var cmd := Command(ChannelStatus(c));
    assert cmd[1] == 'I' && cmd[8] == 'C' && cmd[10] == 'S' && cmd[|cmd| - 1] == ')';
    LiteralDiffers(cmd, "DISPLAY QUEUE(*) TYPE", 8);
    LiteralDiffers(cmd, "DISPLAY CHANNEL(*)", 10);
    LiteralDiffers(cmd, "DISPLAY CONN(*)", 10);
    LiteralDiffers(cmd, "REFRESH SECURITY TYPE(CONNAUTH)", 1);
    PrefixDiffers(cmd, "DEFINE QLOCAL(", ")", 1);
    PrefixDiffers(cmd, "DELETE QLOCAL(", ")", 1);
    PrefixDiffers(cmd, "DISPLAY QUEUE(", ") CURDEPTH", 8);
    PrefixDiffers(cmd, "CLEAR QLOCAL(", ")", 0);
    PrefixDiffers(cmd, "START CHANNEL(", ")", 0);
    PrefixDiffers(cmd, "STOP CHANNEL(", ")", 0);
    PrefixDiffers(cmd, "PING CHANNEL(", ")", 0);
    PrefixDiffers(cmd, "DISPLAY QUEUE(", ") ALL", 8);
    BetweenFramed("DISPLAY CHSTATUS(", c, ")");
  }

  lemma ParseDisplayAuth(o: string)
    ensures Parse(Command(DisplayAuth(o))) == Some(DisplayAuth(o))
  {
    var cmd := Command(DisplayAuth(o));
    assert cmd[1] == 'I' && cmd[8] == 'A' && cmd[|cmd| - 1] == ')';
    LiteralDiffers(cmd, "DISPLAY QUEUE(*) TYPE", 8);
    LiteralDiffers(cmd, "DISPLAY CHANNEL(*)", 8);
    LiteralDiffers(cmd, "DISPLAY CONN(*)", 8);
    LiteralDiffers(cmd, "REFRESH SECURITY TYPE(CONNAUTH)", 1);
    PrefixDiffers(cmd, "DEFINE QLOCAL(", ")", 1);
    PrefixDiffers(cmd, "DELETE QLOCAL(", ")", 1);
    PrefixDiffers(cmd, "DISPLAY QUEUE(", ") CURDEPTH", 8);
    PrefixDiffers(cmd, "CLEAR QLOCAL(", ")", 0);
    PrefixDiffers(cmd, "START CHANNEL(", ")", 0);
    PrefixDiffers(cmd, "STOP CHANNEL(", ")", 0);
    PrefixDiffers(cmd, "PING CHANNEL(", ")", 0);
    PrefixDiffers(cmd, "DISPLAY QUEUE(", ") ALL", 8);
    PrefixDiffers(cmd, "DISPLAY CHSTATUS(", ")", 8);
    BetweenFramed("DISPLAY AUTHREC OBJNAME(", o, ")");
  }

  /** Every catalog command reads back as the operation, and the object name, it was built from. */
  lemma ParseRoundTrip(op: MqscOp)
    ensures Parse(Command(op)) == Some(op)
  {
    match op
    case ListQueues =>
    case ListChannels =>
    case ListConnections =>
    case RefreshSecurity =>
    case CreateQueue(q) => ParseCreateQueue(q);
    case DeleteQueue(q) => ParseDeleteQueue(q);
    case QueueDepth(q) => ParseQueueDepth(q);
    case ClearQueue(q) => ParseClearQueue(q);
    case StartChannel(c) => ParseStartChannel(c);
    case StopChannel(c) => ParseStopChannel(c);
    case PingChannel(c) => ParsePingChannel(c);
    case QueueStats(q) => ParseQueueStats(q);
    case ChannelStatus(c) => ParseChannelStatus(c);
    case DisplayAuth(o) => ParseDisplayAuth(o);
  }
}
