/** The bundled key-value state machine: a value-level `Run` and the class that keeps
    the database in place. */
module KeyValue {
  import opened Types

  type Database = map<string, string>

  predicate IsWrite(c: MachineCommand) {
    c.operation == "write"
  }

  /** The database after a command. */
  function Run(db: Database, c: MachineCommand): Database {
    if IsWrite(c) then db[c.key := c.value] else db
  }

  /** What the command returns: the value just written, or the value read. */
  function Result(db: Database, c: MachineCommand): string {
    if IsWrite(c) then c.value
    else if c.key in db then db[c.key]
    else ""
  }

  /** Run a list of commands, first to last. */
  function Fold(db: Database, cs: seq<MachineCommand>): Database
    decreases |cs|
  {
    if |cs| == 0 then db else Fold(Run(db, cs[0]), cs[1..])
  }

  class StateMachine {
    var database: Database

    constructor ()
      ensures database == map[]
    {
      database := map[];
    }

    /** `None` stands for the panic on bytes that do not decode. */
    method Apply(p: Payload) returns (r: Option<string>)
      modifies this
      ensures CommandOf(p).None? ==> r.None? && database == old(database)
      ensures CommandOf(p).Some? ==>
                && database == Run(old(database), CommandOf(p).value)
                && r == Some(Result(old(database), CommandOf(p).value))
      ensures p.Machine? && p.command.operation == "write" ==>
                database == old(database)[p.command.key := p.command.value] && r == Some(p.command.value)
      ensures p.Machine? && p.command.operation != "write" ==>
                && database == old(database)
                && r == Some(if p.command.key in database then database[p.command.key] else "")
    {
      match CommandOf(p) {
        case None => r := None;
        case Some(c) =>
          if c.operation == "write" {
            database := database[c.key := c.value];
            r := Some(c.value);
            return;
          }
          if c.key !in database {
            r := Some("");
            return;
          }
          r := Some(database[c.key]);
      }
    }
  }
}
