/** The constants of data_models/constants.py that the modelled code reads. */
module Constants {

  /** The text of the placeholder message posted while a prompt is handled. */
  const LoadingIndicator: string := "Loading...."

  /** Slash commands whose echoes in a channel are not conversation. */
  const CustomSlackCommands: seq<string> := ["/intragpt-health-check"]

  /** File suffixes the git tool loads, in the order of the tuple. */
  const AllowedFileExtensions: seq<string> := [
    ".java", ".py", ".c", ".cpp", ".js", ".html", ".css", ".php", ".cs",
    ".go", ".swift", ".ts", ".sh", ".sql", ".lua", ".vb", ".scm",
    ".ex", ".exs", ".eex", ".leex", ".heex", ".ipynb"
  ]
}
