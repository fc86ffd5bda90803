/** The editor's records (the `src/` application): boxes in corner form, categories and images. */
module Annotations {

  /** A box in corner form: top-left corner and extent, normalised to the image. */
  datatype Annotation = Annotation(id: int, categoryId: int, x: real, y: real, width: real, height: real)

  datatype Category = Category(id: int, name: string, color: string)

  datatype Image = Image(id: string, name: string)

  /** A box that lies inside the image and has a valid class, as the editor draws them. */
  predicate Normalized(a: Annotation) {
    && a.categoryId >= 0
    && 0.0 <= a.x && 0.0 <= a.y
    && 0.0 < a.width <= 1.0 && 0.0 < a.height <= 1.0
    && a.x + a.width <= 1.0 && a.y + a.height <= 1.0
  }
}
