/** The messages the panel sends to the extension and where each goes. */
module MessageRouting {
  import opened TaskConstruction

  /** A message from the panel. Only the fields the handler reads are kept;
      which of them a given command uses is up to `Route`. */
  datatype Message = Message(command: string, source: string, projects: seq<ProjectRef>,
                             packageId: string, version: string)

  /** The four branches of the message handler. */
  datatype Action = ReloadProjects | ReloadSources | GetCredentials | PackageOperation

  /** The three named commands go to their own branches; any other command
      is a package operation. */
  function Route(command: string): (a: Action)
    ensures a == ReloadProjects <==> command == "reloadProjects"
    ensures a == ReloadSources <==> command == "reloadSources"
    ensures a == GetCredentials <==> command == "getCredentials"
    ensures a == PackageOperation <==> command !in {"reloadProjects", "reloadSources", "getCredentials"}
  {
    if command == "reloadProjects" then ReloadProjects
    else if command == "reloadSources" then ReloadSources
    else if command == "getCredentials" then GetCredentials
    else PackageOperation
  }

  /** The part of a package-operation message that every one of its tasks shares. */
  function RequestOf(msg: Message): PackageRequest
  {
    PackageRequest(msg.command, msg.packageId, msg.version, msg.source)
  }
}
