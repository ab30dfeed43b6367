/** The input every analyzer receives. */
module Analyzer {
  import opened Models

  /**
   * The merged document mapping, the project's classes, the table of UIKit
   * classes, and the segues of the last document parsed.
   */
  datatype AnalyzerConfiguration = AnalyzerConfiguration(
    classNameToNibMap: map<string, Nib>,
    classNameToClassMap: map<string, Class>,
    uiKitClassNameToClassMap: map<string, Class>,
    allNibSegues: seq<SegueDeclaration>)
}
