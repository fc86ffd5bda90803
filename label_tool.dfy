/** The records of the labelling tool (`yolo-annotation-tool/`): images, classes and boxes kept in YOLO's own form. */
module LabelTool {

  /** A box as the tool stores it: class index, centre and extent, all normalised to the image. */
  datatype LabelBox = LabelBox(cls: int, xCenter: real, yCenter: real, width: real, height: real)

  datatype ToolImage = ToolImage(id: string, name: string)

  datatype ToolClass = ToolClass(id: int, name: string)
}
