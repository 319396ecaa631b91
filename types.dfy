/** The records the client exchanges with the backend and shows to the user
 *  (src/types/index.ts). Every JavaScript `number` that is a score or a
 *  progress value is a `real`; token lifetimes and timestamps are `int`. */
module Types {
  import opened Common

  datatype Ingredient = Ingredient(name: string, itype: string, description: string, healthScore: real)

  /** Each nutrient may be missing (`undefined`) or `null`; both are `None`. */
  datatype NutritionEstimate = NutritionEstimate(
    calory: Option<real>, energy: Option<real>, protein: Option<real>,
    sugar: Option<real>, fat: Option<real>, fiber: Option<real>, sodium: Option<real>)

  datatype ScanResult = ScanResult(
    isSafe: bool, productName: string, url: string, description: string,
    ingredients: seq<Ingredient>, nutrition: NutritionEstimate, healthScore: real)

  datatype HistoryItem = HistoryItem(id: int, createdAt: string, name: string, healthScore: real, imageUrl: string)

  datatype User = User(id: string, email: string, username: string, name: string, createdAt: int)

  datatype AuthState = AuthState(user: Option<User>, isAuthenticated: bool, isLoading: bool)

  /** `expires_in` is in seconds. */
  datatype AuthResponse = AuthResponse(accessToken: string, refreshToken: string, expiresIn: int, userId: string)

  datatype ImageKitAuth = ImageKitAuth(
    mockMode: Option<bool>, publicKey: Option<string>, urlEndpoint: Option<string>,
    signature: Option<string>, token: Option<string>, expire: Option<int>)

  datatype MockUploadResponse = MockUploadResponse(imageUrl: string, success: bool)

  datatype ScanRequest = ScanRequest(url: string, category: string, allergy: string)

  datatype CompareRequest = CompareRequest(url1: string, url2: string, category: string, allergy: string, usecase: string)

  datatype CompareResult = CompareResult(
    bestProduct: string, isSafe1: bool, isSafe2: bool, healthScore1: real, healthScore2: real,
    description1: string, description2: string, preferredForYou: string, url1: string, url2: string)

  datatype ConfirmResponse = ConfirmResponse(success: bool, message: Option<string>)

  datatype LogoutResponse = LogoutResponse(success: bool)

  /** A file chosen by the user: its name, MIME type and size in bytes. */
  datatype File = File(name: string, mime: string, size: int)
}
