/** The vocabulary the canonicalizers share. */
module CanonTypes {
  import opened Regex

  datatype Class = Timestamps | Ansi | Pids | Addresses | TmpPaths | Durations | Crlf | Paths

  /** A span of the original input and the token that replaces it. */
  datatype Match = Match(offset: nat, len: nat, token: Text, cls: Class) {
    function End(): nat { offset + len }
  }
}
