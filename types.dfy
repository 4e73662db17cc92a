/** The value types of the application (src/lib/types.ts). */
module Types {
  import opened Wrappers

  /** `ArtStyle['category']`. */
  datatype Category = Abstract | Photorealistic | Fantasy | Digital | Painting | Sketch

  function CategoryName(c: Category): string {
    match c
    case Abstract => "abstract"
    case Photorealistic => "photorealistic"
    case Fantasy => "fantasy"
    case Digital => "digital"
    case Painting => "painting"
    case Sketch => "sketch"
  }

  datatype ArtStyle = ArtStyle(id: string, name: string, description: string, previewUrl: string, category: Category)

  /** `createdAt` is the millisecond timestamp of the piece's `Date`. */
  datatype ArtPiece = ArtPiece(
    id: string,
    prompt: string,
    imageUrl: string,
    style: ArtStyle,
    createdAt: int,
    userId: Option<string>,
    likes: int,
    downloads: int)

  /** `'1:1' | '16:9' | '4:3' | '3:4'`. */
  datatype AspectRatio = Square | Landscape | Standard | Portrait

  /** `'standard' | 'high' | 'ultra'`. */
  datatype Quality = StandardQuality | HighQuality | UltraQuality

  datatype GenerationRequest = GenerationRequest(
    prompt: string,
    style: Option<string>,
    aspectRatio: Option<AspectRatio>,
    quality: Option<Quality>)

  /** The uniform envelope; `generationTime` is in milliseconds. */
  datatype GenerationResponse = GenerationResponse(
    success: bool,
    imageUrl: Option<string>,
    error: Option<string>,
    generationTime: Option<int>)

  /** `'newest' | 'popular' | 'trending'`. */
  datatype SortKey = Newest | Popular | Trending

  /** The gallery's category selector: a category, or the extra choice `'all'`. */
  datatype CategoryChoice = AllCategories | Only(category: Category)

  datatype GalleryFilter = GalleryFilter(
    category: Option<CategoryChoice>,
    style: Option<string>,
    sortBy: Option<SortKey>,
    search: Option<string>)

  /** A value thrown by JavaScript code: an `Error` carries a message, anything else does not. */
  datatype Thrown = ErrorObject(message: string) | NonError
}
