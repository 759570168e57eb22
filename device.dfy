/**
 * The desktop/mobile decision of src/Pages/Home.jsx (`checkDevice`) and the branch of the
 * right-hand panel it selects.
 */
module Device {

  /** Widths strictly above this count as desktop. */
  const DesktopMinWidth: int := 1024

  const SceneUrl: string := "https://prod.spline.design/Cvc7dzhRZaXrkQYQ/scene.splinecode"
  const SceneLoadingText: string := "Loading 3D Experience\U{2026}"
  const MobileTitle: string := "3D Experience Disabled on Mobile"
  const MobileDetail: string := "Optimized for performance & battery life"

  /** `matchMedia("(pointer:fine)").matches && innerWidth > 1024`. */
  predicate IsDesktop(pointerFine: bool, width: int)
    ensures IsDesktop(pointerFine, width) ==> pointerFine && width > 1024
    ensures pointerFine && width > 1024 ==> IsDesktop(pointerFine, width)
  {
    pointerFine && width > DesktopMinWidth
  }

  /**
   * The right-hand panel: the Spline scene (inside the error boundary and a suspense placeholder)
   * or the static two-line notice.
   */
  datatype Panel =
    | Scene(sceneUrl: string, loadingText: string)
    | MobileNotice(title: string, detail: string)

  function RightPanel(isDesktop: bool): (p: Panel)
    ensures p.Scene? <==> isDesktop
    ensures isDesktop ==> p == Scene(SceneUrl, SceneLoadingText)
    ensures !isDesktop ==> p == MobileNotice(MobileTitle, MobileDetail)
  {
    if isDesktop then Scene(SceneUrl, SceneLoadingText) else MobileNotice(MobileTitle, MobileDetail)
  }

  /** The 3D assets a panel makes the browser fetch. */
  function SceneFetches(p: Panel): set<string> {
    match p
    case Scene(url, _) => {url}
    case MobileNotice(_, _) => {}
  }

  /**
   * A viewport at most 1024 wide is never desktop, whatever the pointer, and then no scene
   * asset is requested; a wide viewport with a coarse pointer is not desktop either.
   */
  lemma NarrowOrCoarseFetchesNothing(pointerFine: bool, width: int)
    ensures width <= DesktopMinWidth || !pointerFine ==> !IsDesktop(pointerFine, width)
    ensures !IsDesktop(pointerFine, width) ==> SceneFetches(RightPanel(IsDesktop(pointerFine, width))) == {}
    ensures IsDesktop(pointerFine, width) ==> SceneFetches(RightPanel(IsDesktop(pointerFine, width))) == {SceneUrl}
  {
  }
}
