/** The screens the application can navigate to, with the data each receives. */
module Navigation {
  import opened Wrappers

  /** A folder of a content provider's catalogue (`ContentFolder`). */
  datatype ContentFolder = ContentFolder(id: string, title: string, path: string,
                                         thumbnail: Option<string>, isLeaf: bool)

  datatype Route =
    | ContentBrowser(providerId: string, folderStack: seq<ContentFolder>)
    | ProviderDownload(providerId: string, coverImage: Option<string>, title: string,
                       startIndex: int, folderStack: seq<ContentFolder>)
    | Player
    | ProviderPlayer(providerId: string, providerStartIndex: int)
    | ProviderDeviceAuth(providerId: string)
    | ProviderFormLogin(providerId: string)
    | LessonDetails
    | PlanDownload
    | Download
    | Offline
    | SelectRoom
}
