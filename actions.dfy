/**
 * The closed catalogue of farm commands. In the server these are string
 * constants of the `actions` module; only their identity matters here, so
 * each constant is one constructor.
 */
module Actions {
  datatype Command =
    | Print      // COMMAND_PRINT
    | Pause      // COMMAND_PAUSE
    | Resume     // COMMAND_RESUME
    | Load       // COMMAND_LOAD: upload a file, then select it
    | LoadFile   // COMMAND_LOAD_FILE: select a file already on the printer
    | Cancel     // COMMAND_CANCEL
    | Preheat    // COMMAND_PREHEAT: set tool and bed targets
    | Shutdown   // COMMAND_SHUTDOWN
    | Finish     // COMMAND_FINISH: handled locally, no request
}
