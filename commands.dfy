/** The action word both command handlers dispatch on: `args[0]?.toLowerCase()`. */
module Commands {
  import opened Text

  datatype Action = Add | List | Delete | Help

  const AddWords: seq<string> := ["新增", "add", "建立"]
  const ListWords: seq<string> := ["查詢", "list", "列表"]
  const DeleteWords: seq<string> := ["刪除", "delete", "remove", "取消"]

  /** The action named by the first argument; a missing or unknown first argument asks for help. */
  function ActionOf(args: seq<string>): (a: Action)
    ensures a == Add <==> |args| > 0 && ToLower(args[0]) in AddWords
    ensures a == List <==> |args| > 0 && ToLower(args[0]) in ListWords
    ensures a == Delete <==> |args| > 0 && ToLower(args[0]) in DeleteWords
  {
    if |args| == 0 then Help
    else
      var action := ToLower(args[0]);
      if action in AddWords then Add
      else if action in ListWords then List
      else if action in DeleteWords then Delete
      else Help
  }
}
