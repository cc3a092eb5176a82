/** The top-level phases of the application. */
module States {

  /** Exactly one phase is active at a time; MainMenu is where the application starts. */
  datatype GameState =
    | MainMenu
    | Connect
    | HostingLobby
    | WaitingConnection
    | Hotseat
    | Playing
    | GameOver
    | Draw
    | Disconnected

  const DEFAULT_STATE: GameState := MainMenu
}
